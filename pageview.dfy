/** `PageView` of django_mc/generic/pageview.py: a detail view whose page
    object provides components and which collects further components of its
    own, added by hand, that are folded in after the layout chain and the
    page. */
module PageViews {
  import opened Wrappers
  import opened Components
  import opened Regions
  import opened Layouts
  import opened Views

  /** The `region` argument of `add_extra_component`: a `Region` or a slug. */
  datatype RegionArg = RegionObject(region: Region) | RegionSlug(slug: string)

  /** `extras.setdefault(k, []).append(x)` on a value. */
  function AppendUnder(extras: RegionMap, k: RegionId, x: Entry): (next: RegionMap)
    ensures next.Keys == extras.Keys + {k}
    ensures next[k] == (if k in extras then extras[k] else []) + [x]
    ensures forall j :: j in extras && j != k ==> next[j] == extras[j]
  {
    extras[k := (if k in extras then extras[k] else []) + [x]]
  }

  class PageView {
    /** What `get_layout()` chose. */
    const layout: Layout
    /** The placement rows of `self.object`, the page. */
    const pageRows: seq<Placement>
    /** `self.extra_components`: `None` until the first addition. */
    var extraComponents: Option<RegionMap>

    /** Every extras list holds at least the component that created it. */
    ghost predicate Valid()
      reads this
    {
      extraComponents.Some? ==> forall k :: k in extraComponents.value ==> extraComponents.value[k] != []
    }

    constructor (layout: Layout, pageRows: seq<Placement>)
      ensures Valid()
      ensures this.layout == layout && this.pageRows == pageRows && extraComponents == None
    {
      this.layout := layout;
      this.pageRows := pageRows;
      extraComponents := None;
    }

    /** `add_extra_component(region, component)`. The extras map is created
        first; a slug is then looked up in the region cache, and a slug the
        cache does not know is the `KeyError` of pageview.py line 26, which
        leaves the (possibly new, empty) map without the component. */
    method AddExtraComponent(region: RegionArg, component: Entry, manager: RegionManager, rows: seq<Region>)
      returns (r: Result<RegionId, ViewError>)
      requires Valid()
      modifies this, manager
      ensures Valid()
      ensures region.RegionObject? ==> manager.cache == old(manager.cache)
      ensures region.RegionSlug? && old(manager.cache).Some? ==> manager.cache == old(manager.cache)
      ensures region.RegionSlug? && old(manager.cache).None? ==> manager.cache == Some(BuildCache(rows))
      ensures region.RegionObject? ==> r == Ok(region.region.pk)
      ensures region.RegionSlug? && region.slug !in manager.cache.value.bySlug ==> r == Err(UnknownRegion)
      ensures region.RegionSlug? && region.slug in manager.cache.value.bySlug ==>
        r == Ok(manager.cache.value.bySlug[region.slug].pk)
      ensures r.Ok? ==> extraComponents == Some(AppendUnder(old(extraComponents).GetOr(map[]), r.value, component))
      ensures r.Err? ==> extraComponents == Some(old(extraComponents).GetOr(map[]))
    {
      if extraComponents.None? {
        extraComponents := Some(map[]);
      }
      var target: Region;
      match region {
        case RegionObject(reg) =>
          target := reg;
        case RegionSlug(slug) =>
          var bySlug := manager.RegionsBySlug(rows);
          if slug !in bySlug {
            return Err(UnknownRegion);
          }
          target := bySlug[slug];
      }
      extraComponents := Some(AppendUnder(extraComponents.value, target.pk, component));
      r := Ok(target.pk);
    }

    /** `get_components_by_region()`: the extras, or `{}` before the first
        addition. */
    function ComponentsByRegion(): (m: RegionMap)
      reads this
      ensures extraComponents.None? ==> m == map[]
      ensures extraComponents.Some? ==> m == extraComponents.value
    {
      extraComponents.GetOr(map[])
    }

    /** `get_component_providers()`: the layout chain, then the page object,
        then the view itself. */
    function ComponentProviders(): (ps: seq<Provider>)
      reads this
      ensures |ps| == |Layouts.ComponentProviders(layout)| + 2
      ensures ps[..|ps| - 2] == LayoutProviders(layout)
      ensures ps[|ps| - 2] == RowsProvider(pageRows)
      ensures ps[|ps| - 1] == ExtrasProvider(ComponentsByRegion())
    {
      LayoutProviders(layout) + [RowsProvider(pageRows), ExtrasProvider(ComponentsByRegion())]
    }
  }

  lemma ProviderMapsPrefix(ps: seq<Provider>)
    requires ps != []
    ensures ProviderMaps(ps)[..|ps| - 1] == ProviderMaps(ps[..|ps| - 1])
  {
  }

  /** The view's extras are folded in last: for a region it mentions,
      `combine` appends them to what the layout chain and the page placed
      there, and `overwrite` replaces that with them. */
  lemma ExtrasFoldedLast(view: PageView, byPk: map<nat, Region>, r: RegionId)
    requires view.Valid()
    requires Fold(ProviderMaps(view.ComponentProviders()), byPk).Ok?
    requires r in view.ComponentsByRegion()
    ensures r in byPk
    ensures
      var ps := view.ComponentProviders();
      var before := Fold(ProviderMaps(ps[..|ps| - 1]), byPk);
      && before.Ok?
      && (byPk[r].componentExtendRule == Combine ==>
            Fold(ProviderMaps(ps), byPk).value[r] == Some(Current(before.value, r) + view.ComponentsByRegion()[r]))
      && (byPk[r].componentExtendRule == Overwrite ==>
            Fold(ProviderMaps(ps), byPk).value[r] == Some(view.ComponentsByRegion()[r]))
  {
    var ps := view.ComponentProviders();
    var ms := ProviderMaps(ps);
    ProviderMapsPrefix(ps);
    assert ms[|ms| - 1] == view.ComponentsByRegion();
    FoldLast(ms, byPk, r);
  }
}
