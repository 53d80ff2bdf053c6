/** `Region` and its cached lookup tables (`RegionManager`) from
    django_mc/models.py. */
module Regions {
  import opened Wrappers

  /** The two values `component_extend_rule` is meant to take. */
  const Combine: string := "combine"
  const Overwrite: string := "overwrite"

  datatype Region = Region(pk: nat, name: string, slug: string, componentExtendRule: string, position: int)

  /** `Region.get_template_hints`. */
  function RegionHints(r: Region): (hints: seq<string>)
    ensures |hints| == 1 && hints[0] == "region-" + r.slug
  {
    ["region-" + r.slug]
  }

  /** `Region.extend_components(first, second)`. `None` is the implicit
      `return None` for a rule that is neither of the two choices. */
  function ExtendComponents<T>(region: Region, first: seq<T>, second: seq<T>): (r: Option<seq<T>>)
    ensures region.componentExtendRule == Overwrite ==> r == Some(if second != [] then second else first)
    ensures region.componentExtendRule == Combine ==> r == Some(first + second)
    ensures r.None? <==> region.componentExtendRule !in {Combine, Overwrite}
  {
    if region.componentExtendRule == Overwrite then
      if second != [] then Some(second) else Some(first)
    else if region.componentExtendRule == Combine then
      // `combined.extend(...)` guarded by `if first:` / `if second:`; an
      // empty list adds nothing, so the guards do not change the result.
      Some(first + second)
    else
      None
  }

  /** Combining never de-duplicates: the result holds every entry of both. */
  lemma CombineLength<T>(region: Region, first: seq<T>, second: seq<T>)
    requires region.componentExtendRule == Combine
    ensures ExtendComponents(region, first, second).Some?
    ensures |ExtendComponents(region, first, second).value| == |first| + |second|
    ensures multiset(ExtendComponents(region, first, second).value) == multiset(first) + multiset(second)
  {
  }

  /** The three tables `fill_cache` builds. */
  datatype RegionCache = RegionCache(
    bySlug: map<string, Region>,
    byPk: map<nat, Region>,
    pkToSlug: map<nat, string>)

  /** Some row of `rows` has this primary key. */
  ghost predicate HasPk(rows: seq<Region>, pk: nat)
  {
    exists i :: 0 <= i < |rows| && rows[i].pk == pk
  }

  ghost predicate HasSlug(rows: seq<Region>, slug: string)
  {
    exists i :: 0 <= i < |rows| && rows[i].slug == slug
  }

  /** The three `dict(...)` constructions of `fill_cache`: each key is bound
      to the last row that carries it. */
  function BuildCache(rows: seq<Region>): (c: RegionCache)
    ensures forall pk :: pk in c.byPk <==> HasPk(rows, pk)
    ensures forall pk :: pk in c.pkToSlug <==> HasPk(rows, pk)
    ensures forall s :: s in c.bySlug <==> HasSlug(rows, s)
    ensures forall pk :: pk in c.byPk ==> c.byPk[pk].pk == pk && c.pkToSlug[pk] == c.byPk[pk].slug
    ensures forall s :: s in c.bySlug ==> c.bySlug[s].slug == s
    ensures forall pk :: pk in c.byPk ==> c.byPk[pk] in rows
    ensures forall s :: s in c.bySlug ==> c.bySlug[s] in rows
  {
    if rows == [] then RegionCache(map[], map[], map[])
    else
      var init := rows[..|rows| - 1];
      var r := rows[|rows| - 1];
      var c := BuildCache(init);
      assert forall pk :: HasPk(rows, pk) <==> HasPk(init, pk) || pk == r.pk by {
        forall pk ensures HasPk(rows, pk) <==> HasPk(init, pk) || pk == r.pk {
          if HasPk(rows, pk) && pk != r.pk {
            var i :| 0 <= i < |rows| && rows[i].pk == pk;
            assert init[i] == rows[i];
          }
          if HasPk(init, pk) {
            var i :| 0 <= i < |init| && init[i].pk == pk;
            assert rows[i] == init[i];
          }
        }
      }
      assert forall s :: HasSlug(rows, s) <==> HasSlug(init, s) || s == r.slug by {
        forall s ensures HasSlug(rows, s) <==> HasSlug(init, s) || s == r.slug {
          if HasSlug(rows, s) && s != r.slug {
            var i :| 0 <= i < |rows| && rows[i].slug == s;
            assert init[i] == rows[i];
          }
          if HasSlug(init, s) {
            var i :| 0 <= i < |init| && init[i].slug == s;
            assert rows[i] == init[i];
          }
        }
      }
      assert forall x :: x in init ==> x in rows;
      RegionCache(c.bySlug[r.slug := r], c.byPk[r.pk := r], c.pkToSlug[r.pk := r.slug])
  }

  /** What the database guarantees: primary keys and slugs (`unique=True`)
      are unique. */
  ghost predicate UniqueKeys(rows: seq<Region>)
  {
    forall i, j :: 0 <= i < j < |rows| ==> rows[i].pk != rows[j].pk && rows[i].slug != rows[j].slug
  }

  /** The three tables agree: a primary key's region, its slug and the region
      found by that slug are one and the same, and no two keys share a slug. */
  ghost predicate Consistent(c: RegionCache)
  {
    && c.byPk.Keys == c.pkToSlug.Keys
    && (forall pk :: pk in c.byPk ==> c.byPk[pk].pk == pk && c.byPk[pk].slug == c.pkToSlug[pk])
    && (forall pk :: pk in c.pkToSlug ==> c.pkToSlug[pk] in c.bySlug && c.bySlug[c.pkToSlug[pk]] == c.byPk[pk])
    && (forall s :: s in c.bySlug ==> c.bySlug[s].slug == s && c.bySlug[s].pk in c.byPk)
    && (forall p, q :: p in c.pkToSlug && q in c.pkToSlug && c.pkToSlug[p] == c.pkToSlug[q] ==> p == q)
  }

  /** With unique keys, the tables `fill_cache` builds are consistent. */
  lemma BuildCacheConsistent(rows: seq<Region>)
    requires UniqueKeys(rows)
    ensures Consistent(BuildCache(rows))
  {
    SlugsLeadBack(rows);
    SlugsHavePks(rows);
    SlugsAreInjective(rows);
  }

  lemma SlugsLeadBack(rows: seq<Region>)
    requires UniqueKeys(rows)
    ensures forall pk :: pk in BuildCache(rows).pkToSlug ==>
      && BuildCache(rows).pkToSlug[pk] in BuildCache(rows).bySlug
      && BuildCache(rows).bySlug[BuildCache(rows).pkToSlug[pk]] == BuildCache(rows).byPk[pk]
  {
    forall pk | pk in BuildCache(rows).pkToSlug
      ensures BuildCache(rows).pkToSlug[pk] in BuildCache(rows).bySlug
      ensures BuildCache(rows).bySlug[BuildCache(rows).pkToSlug[pk]] == BuildCache(rows).byPk[pk]
    {
      SlugLeadsBack(rows, pk);
    }
  }

  lemma SlugsHavePks(rows: seq<Region>)
    ensures forall s :: s in BuildCache(rows).bySlug ==> BuildCache(rows).bySlug[s].pk in BuildCache(rows).byPk
  {
    forall s | s in BuildCache(rows).bySlug ensures BuildCache(rows).bySlug[s].pk in BuildCache(rows).byPk {
      SlugHasPk(rows, s);
    }
  }

  lemma SlugsAreInjective(rows: seq<Region>)
    requires UniqueKeys(rows)
    ensures forall p, q ::
      (p in BuildCache(rows).pkToSlug && q in BuildCache(rows).pkToSlug &&
       BuildCache(rows).pkToSlug[p] == BuildCache(rows).pkToSlug[q]) ==> p == q
  {
    var c := BuildCache(rows);
    forall p, q | p in c.pkToSlug && q in c.pkToSlug && c.pkToSlug[p] == c.pkToSlug[q]
      ensures p == q
    {
      SameRowWhenSameKey(rows, c.byPk[p], c.byPk[q]);
    }
  }

  lemma SlugLeadsBack(rows: seq<Region>, pk: nat)
    requires UniqueKeys(rows)
    requires pk in BuildCache(rows).pkToSlug
    ensures BuildCache(rows).pkToSlug[pk] in BuildCache(rows).bySlug
    ensures BuildCache(rows).bySlug[BuildCache(rows).pkToSlug[pk]] == BuildCache(rows).byPk[pk]
  {
    var c := BuildCache(rows);
    var x := c.byPk[pk];
    var i :| 0 <= i < |rows| && rows[i] == x;
    assert HasSlug(rows, x.slug);
    SameRowWhenSameKey(rows, c.bySlug[x.slug], x);
  }

  lemma SlugHasPk(rows: seq<Region>, s: string)
    requires s in BuildCache(rows).bySlug
    ensures BuildCache(rows).bySlug[s].pk in BuildCache(rows).byPk
  {
    var x := BuildCache(rows).bySlug[s];
    var i :| 0 <= i < |rows| && rows[i] == x;
    assert HasPk(rows, x.pk);
  }

  /** With unique keys, two rows that share a slug (or a key) are the same row. */
  lemma SameRowWhenSameKey(rows: seq<Region>, x: Region, y: Region)
    requires UniqueKeys(rows)
    requires x in rows && y in rows
    requires x.slug == y.slug || x.pk == y.pk
    ensures x == y
  {
    var i :| 0 <= i < |rows| && rows[i] == x;
    var j :| 0 <= j < |rows| && rows[j] == y;
  }

  /** `Region.objects`. The three cache attributes are set together by
      `fill_cache` and deleted together by `clear_cache`, so they are one
      optional value here. `rows` stands for `self.all()`, the regions in
      the database at the time of the call. */
  class RegionManager {
    var cache: Option<RegionCache>

    constructor ()
      ensures cache == None
    {
      cache := None;
    }

    /** `fill_cache()`: rebuild all three tables from the current rows. */
    method FillCache(rows: seq<Region>)
      modifies this
      ensures cache == Some(BuildCache(rows))
      ensures UniqueKeys(rows) ==> Consistent(cache.value)
    {
      cache := Some(BuildCache(rows));
      if UniqueKeys(rows) {
        BuildCacheConsistent(rows);
      }
    }

    /** `clear_cache()`: drop the tables; without tables nothing happens. */
    method ClearCache()
      modifies this
      ensures cache == None
    {
      cache := None;
    }

    /** Fill the cache only when it is absent. */
    method EnsureFilled(rows: seq<Region>) returns (c: RegionCache)
      modifies this
      ensures old(cache).Some? ==> cache == old(cache)
      ensures old(cache).None? ==> cache == Some(BuildCache(rows))
      ensures cache == Some(c)
    {
      if cache.None? {
        FillCache(rows);
      }
      c := cache.value;
    }

    /** `regions_by_slug()`. */
    method RegionsBySlug(rows: seq<Region>) returns (m: map<string, Region>)
      modifies this
      ensures old(cache).Some? ==> cache == old(cache)
      ensures old(cache).None? ==> cache == Some(BuildCache(rows))
      ensures cache.Some? && m == cache.value.bySlug
    {
      var c := EnsureFilled(rows);
      m := c.bySlug;
    }

    /** `regions_by_pk()`. */
    method RegionsByPk(rows: seq<Region>) returns (m: map<nat, Region>)
      modifies this
      ensures old(cache).Some? ==> cache == old(cache)
      ensures old(cache).None? ==> cache == Some(BuildCache(rows))
      ensures cache.Some? && m == cache.value.byPk
    {
      var c := EnsureFilled(rows);
      m := c.byPk;
    }

    /** `region_pk_to_slug()`. */
    method RegionPkToSlug(rows: seq<Region>) returns (m: map<nat, string>)
      modifies this
      ensures old(cache).Some? ==> cache == old(cache)
      ensures old(cache).None? ==> cache == Some(BuildCache(rows))
      ensures cache.Some? && m == cache.value.pkToSlug
    {
      var c := EnsureFilled(rows);
      m := c.pkToSlug;
    }
  }
}
