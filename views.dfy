/** The layout-driven detail view of django_mc/views.py: merging the
    components that several providers place in each region, ordering them by
    position and keying the result by region slug. */
module Views {
  import opened Wrappers
  import opened Seqs
  import opened Components
  import opened Regions
  import opened Layouts
  import opened TemplateHints

  /** What a provider's `get_components_by_region()` returns. */
  type RegionMap = map<RegionId, seq<Entry>>

  /** A component provider: a model instance with placement rows (a layout,
      a page object), or a provider that lists its components directly (the
      extras a `PageView` collects). */
  datatype Provider = RowsProvider(rows: seq<Placement>) | ExtrasProvider(extras: RegionMap)

  function ProvidedComponents(p: Provider): RegionMap
  {
    match p
    case RowsProvider(rows) => Grouped(rows)
    case ExtrasProvider(extras) => extras
  }

  function ProviderMaps(ps: seq<Provider>): (ms: seq<RegionMap>)
    ensures |ms| == |ps|
    ensures forall i :: 0 <= i < |ps| ==> ms[i] == ProvidedComponents(ps[i])
  {
    seq(|ps|, i requires 0 <= i < |ps| => ProvidedComponents(ps[i]))
  }

  /** The two ways building the region map fails: a `KeyError` for a region
      id the region cache does not hold, or the `TypeError` of sorting the
      `None` an unknown extend rule leaves behind. */
  datatype ViewError = UnknownRegion | InvalidExtendRule

  /** `components_by_region` while the providers are folded in. `None` is
      the value `extend_components` returns for a region whose extend rule
      is neither choice. */
  type Acc = map<RegionId, Option<seq<Entry>>>

  /** `components_by_region.get(region_id, [])`. A stored `None` comes only
      from an invalid rule, and with such a rule `extend_components` gives
      `None` again whatever its first argument, so reading it as `[]` does
      not change the result. */
  function Current(acc: Acc, r: RegionId): seq<Entry>
  {
    if r in acc then acc[r].GetOr([]) else []
  }

  /** `acc` after the inner loop over one provider's regions. */
  function MergeInto(acc: Acc, m: RegionMap, byPk: map<nat, Region>): (next: Acc)
    requires m.Keys <= byPk.Keys
    ensures next.Keys == acc.Keys + m.Keys
    ensures forall r :: r in m ==> next[r] == ExtendComponents(byPk[r], Current(acc, r), m[r])
    ensures forall r :: r in acc && r !in m ==> next[r] == acc[r]
  {
    map r | r in acc.Keys + m.Keys ::
      if r in m then ExtendComponents(byPk[r], Current(acc, r), m[r]) else acc[r]
  }

  /** One provider folded in; a region id missing from `regions_by_pk` is
      the `KeyError` of views.py line 118. */
  function Step(acc: Acc, m: RegionMap, byPk: map<nat, Region>): Result<Acc, ViewError>
  {
    if m.Keys <= byPk.Keys then Ok(MergeInto(acc, m, byPk)) else Err(UnknownRegion)
  }

  /** The region ids any of the maps mentions. */
  function AllKeys(ms: seq<RegionMap>): set<RegionId>
  {
    if ms == [] then {} else AllKeys(ms[..|ms| - 1]) + ms[|ms| - 1].Keys
  }

  /** The outer loop over the providers, as a left fold: it succeeds exactly
      when every region any provider mentions is known, and the regions of
      the result are exactly those the providers mention. */
  function Fold(ms: seq<RegionMap>, byPk: map<nat, Region>): (r: Result<Acc, ViewError>)
    ensures r.Ok? <==> forall i :: 0 <= i < |ms| ==> ms[i].Keys <= byPk.Keys
    ensures r.Err? ==> r.error == UnknownRegion
    ensures r.Ok? ==> r.value.Keys == AllKeys(ms) && r.value.Keys <= byPk.Keys
  {
    if ms == [] then Ok(map[])
    else
      var init := ms[..|ms| - 1];
      assert forall i :: 0 <= i < |init| ==> init[i] == ms[i];
      var prior := Fold(init, byPk);
      if prior.Err? then prior else Step(prior.value, ms[|ms| - 1], byPk)
  }

  /** The inner `for` loop of `get_components_for_regions`: one provider's
      regions folded in, in whatever order its dictionary iterates. Each
      iteration touches only its own region, so any order gives `Step`. */
  method MergeProvider(acc: Acc, m: RegionMap, byPk: map<nat, Region>) returns (r: Result<Acc, ViewError>)
    ensures r == Step(acc, m, byPk)
  {
    var todo := m.Keys;
    var cur := acc;
    while todo != {}
      invariant todo <= m.Keys
      invariant m.Keys - todo <= byPk.Keys
      invariant cur.Keys == acc.Keys + (m.Keys - todo)
      invariant forall k :: k in m.Keys - todo ==> cur[k] == ExtendComponents(byPk[k], Current(acc, k), m[k])
      invariant forall k :: k in acc && k !in m.Keys - todo ==> cur[k] == acc[k]
      decreases todo
    {
      var k :| k in todo;
      if k !in byPk {
        return Err(UnknownRegion);
      }
      assert Current(cur, k) == Current(acc, k);
      cur := cur[k := ExtendComponents(byPk[k], Current(cur, k), m[k])];
      todo := todo - {k};
    }
    MergedWhenDone(acc, m, byPk, cur);
    return Ok(cur);
  }

  /** A map that agrees with `MergeInto` on every key is `MergeInto`. */
  lemma MergedWhenDone(acc: Acc, m: RegionMap, byPk: map<nat, Region>, cur: Acc)
    requires m.Keys <= byPk.Keys
    requires cur.Keys == acc.Keys + m.Keys
    requires forall k :: k in m ==> cur[k] == ExtendComponents(byPk[k], Current(acc, k), m[k])
    requires forall k :: k in acc && k !in m ==> cur[k] == acc[k]
    ensures cur == MergeInto(acc, m, byPk)
  {
  }

  /** The outer `for` loop: the providers folded in order; the first unknown
      region ends it with the `KeyError`. */
  method MergeProviders(ms: seq<RegionMap>, byPk: map<nat, Region>) returns (r: Result<Acc, ViewError>)
    ensures r == Fold(ms, byPk)
  {
    var acc: Acc := map[];
    var i := 0;
    while i < |ms|
      invariant 0 <= i <= |ms|
      invariant Fold(ms[..i], byPk) == Ok(acc)
    {
      var next := MergeProvider(acc, ms[i], byPk);
      assert Fold(ms[..i + 1], byPk) == next by {
        var prefix := ms[..i + 1];
        assert prefix[..i] == ms[..i] && prefix[i] == ms[i];
      }
      if next.Err? {
        UnknownRegionSticks(ms, byPk, i + 1);
        return next;
      }
      acc := next.value;
      i := i + 1;
    }
    assert ms[..i] == ms;
    return Ok(acc);
  }

  /** Once the fold has failed, folding in more providers cannot repair it. */
  lemma {:induction false} UnknownRegionSticks(ms: seq<RegionMap>, byPk: map<nat, Region>, j: nat)
    requires j <= |ms|
    requires Fold(ms[..j], byPk).Err?
    ensures Fold(ms, byPk) == Err(UnknownRegion)
    decreases |ms| - j
  {
    if j < |ms| {
      assert ms[..j + 1][..j] == ms[..j];
      UnknownRegionSticks(ms, byPk, j + 1);
    } else {
      assert ms[..j] == ms;
    }
  }

  /** The lists the providers give for region `r`, in provider order. */
  function Contributions(ms: seq<RegionMap>, r: RegionId): seq<seq<Entry>>
  {
    if ms == [] then []
    else Contributions(ms[..|ms| - 1], r) + (if r in ms[|ms| - 1] then [ms[|ms| - 1][r]] else [])
  }

  lemma {:induction false} ContributionsMention(ms: seq<RegionMap>, r: RegionId)
    ensures r in AllKeys(ms) <==> Contributions(ms, r) != []
  {
    if ms != [] {
      ContributionsMention(ms[..|ms| - 1], r);
    }
  }

  /** What the fold holds for `r` once the last provider is folded in. */
  lemma FoldLast(ms: seq<RegionMap>, byPk: map<nat, Region>, r: RegionId)
    requires ms != [] && Fold(ms, byPk).Ok?
    ensures Fold(ms[..|ms| - 1], byPk).Ok?
    ensures Contributions(ms, r) ==
      Contributions(ms[..|ms| - 1], r) + (if r in ms[|ms| - 1] then [ms[|ms| - 1][r]] else [])
    ensures r in ms[|ms| - 1] ==>
      Fold(ms, byPk).value[r] == ExtendComponents(byPk[r], Current(Fold(ms[..|ms| - 1], byPk).value, r), ms[|ms| - 1][r])
    ensures r !in ms[|ms| - 1] ==>
      (r in Fold(ms, byPk).value <==> r in Fold(ms[..|ms| - 1], byPk).value)
    ensures r !in ms[|ms| - 1] && r in Fold(ms, byPk).value ==>
      Fold(ms, byPk).value[r] == Fold(ms[..|ms| - 1], byPk).value[r]
  {
    var init := ms[..|ms| - 1];
    assert Fold(ms, byPk) == Step(Fold(init, byPk).value, ms[|ms| - 1], byPk);
  }

  /** Under `combine`, a region collects every provider's list, in provider
      order, with nothing dropped or repeated. */
  lemma {:induction false} FoldCombines(ms: seq<RegionMap>, byPk: map<nat, Region>, r: RegionId)
    requires Fold(ms, byPk).Ok?
    requires r in byPk && byPk[r].componentExtendRule == Combine
    ensures r in Fold(ms, byPk).value <==> Contributions(ms, r) != []
    ensures r in Fold(ms, byPk).value ==> Fold(ms, byPk).value[r] == Some(Flatten(Contributions(ms, r)))
  {
    ContributionsMention(ms, r);
    if ms != [] {
      var init := ms[..|ms| - 1];
      FoldLast(ms, byPk, r);
      FoldCombines(init, byPk, r);
      var cs := Contributions(init, r);
      var last := ms[|ms| - 1];
      if r in last {
        FlattenAppend(cs, [last[r]]);
        assert Flatten([last[r]]) == last[r] + Flatten([]);
        assert last[r] + [] == last[r];
        assert Current(Fold(init, byPk).value, r) == Flatten(cs);
      } else {
        assert cs + [] == cs;
      }
    }
  }

  /** The last non-empty list, or `[]` when there is none. */
  function LastNonEmpty(cs: seq<seq<Entry>>): (l: seq<Entry>)
    ensures l == [] || l in cs
  {
    if cs == [] then []
    else if cs[|cs| - 1] != [] then cs[|cs| - 1]
    else LastNonEmpty(cs[..|cs| - 1])
  }

  /** Under `overwrite`, a region holds the last non-empty list any provider
      gives it: a later provider replaces what earlier ones placed. */
  lemma {:induction false} FoldOverwrites(ms: seq<RegionMap>, byPk: map<nat, Region>, r: RegionId)
    requires Fold(ms, byPk).Ok?
    requires r in byPk && byPk[r].componentExtendRule == Overwrite
    ensures r in Fold(ms, byPk).value <==> Contributions(ms, r) != []
    ensures r in Fold(ms, byPk).value ==> Fold(ms, byPk).value[r] == Some(LastNonEmpty(Contributions(ms, r)))
  {
    ContributionsMention(ms, r);
    if ms != [] {
      var init := ms[..|ms| - 1];
      FoldLast(ms, byPk, r);
      FoldOverwrites(init, byPk, r);
      var cs := Contributions(init, r);
      var last := ms[|ms| - 1];
      if r in last {
        var cs' := cs + [last[r]];
        assert cs'[..|cs'| - 1] == cs;
        assert Current(Fold(init, byPk).value, r) == LastNonEmpty(cs);
      } else {
        assert cs + [] == cs;
      }
    }
  }

  /** Under any other rule a mentioned region holds `None`. */
  lemma {:induction false} FoldInvalidRule(ms: seq<RegionMap>, byPk: map<nat, Region>, r: RegionId)
    requires Fold(ms, byPk).Ok?
    requires r in byPk && byPk[r].componentExtendRule !in {Combine, Overwrite}
    ensures r in Fold(ms, byPk).value ==> Fold(ms, byPk).value[r] == None
  {
    if ms != [] {
      FoldInvalidRule(ms[..|ms| - 1], byPk, r);
    }
  }

  /** Folding one more provider in is one more `Step` on the fold so far. */
  lemma FoldSnoc(ms: seq<RegionMap>, m: RegionMap, byPk: map<nat, Region>)
    ensures Fold(ms, byPk).Err? ==> Fold(ms + [m], byPk) == Fold(ms, byPk)
    ensures Fold(ms, byPk).Ok? ==> Fold(ms + [m], byPk) == Step(Fold(ms, byPk).value, m, byPk)
  {
    assert (ms + [m])[..|ms|] == ms;
  }

  // ---------------------------------------------------------------------
  // Ordering (`order_component_list`)

  predicate SortedByPosition(s: seq<Entry>)
  {
    forall i, j :: 0 <= i < j < |s| ==> Position(s[i]) <= Position(s[j])
  }

  /** Put `x` before the first entry whose position is not smaller. */
  function Insert(x: Entry, s: seq<Entry>): seq<Entry>
  {
    if s == [] || Position(x) <= Position(s[0]) then [x] + s
    else [s[0]] + Insert(x, s[1..])
  }

  /** `sorted(component_list, key=lambda c: c.position)`: a stable sort. */
  function SortByPosition(s: seq<Entry>): seq<Entry>
  {
    if s == [] then [] else Insert(s[0], SortByPosition(s[1..]))
  }

  /** The entries at position `p`, in order. */
  function AtPosition(s: seq<Entry>, p: int): seq<Entry>
  {
    if s == [] then []
    else (if Position(s[0]) == p then [s[0]] else []) + AtPosition(s[1..], p)
  }

  lemma {:induction false} InsertPermutes(x: Entry, s: seq<Entry>)
    ensures multiset(Insert(x, s)) == multiset{x} + multiset(s)
  {
    if s != [] && Position(x) > Position(s[0]) {
      InsertPermutes(x, s[1..]);
      assert s == [s[0]] + s[1..];
    }
  }

  lemma {:induction false} InsertSorted(x: Entry, s: seq<Entry>)
    requires SortedByPosition(s)
    ensures SortedByPosition(Insert(x, s))
  {
    if s != [] && Position(x) > Position(s[0]) {
      InsertSorted(x, s[1..]);
      InsertPermutes(x, s[1..]);
      var t := Insert(x, s[1..]);
      forall k | 0 <= k < |t| ensures Position(s[0]) <= Position(t[k]) {
        assert t[k] in multiset(t);
        if t[k] != x {
          assert t[k] in multiset(s[1..]);
          var j :| 0 <= j < |s[1..]| && s[1..][j] == t[k];
          assert s[j + 1] == t[k];
        }
      }
      assert Insert(x, s) == [s[0]] + t;
    }
  }

  lemma {:induction false} InsertStable(x: Entry, s: seq<Entry>, p: int)
    ensures AtPosition(Insert(x, s), p) == (if Position(x) == p then [x] else []) + AtPosition(s, p)
  {
    if s == [] || Position(x) <= Position(s[0]) {
      assert ([x] + s)[1..] == s;
    } else {
      InsertStable(x, s[1..], p);
      var t := Insert(x, s[1..]);
      assert ([s[0]] + t)[0] == s[0] && ([s[0]] + t)[1..] == t;
      var rest := AtPosition(s[1..], p);
      var hx: seq<Entry> := if Position(x) == p then [x] else [];
      var h0: seq<Entry> := if Position(s[0]) == p then [s[0]] else [];
      assert AtPosition(s, p) == h0 + rest;
      assert AtPosition(Insert(x, s), p) == h0 + (hx + rest);
      if hx == [] {
        assert hx + rest == rest;
        assert hx + (h0 + rest) == h0 + rest;
      } else {
        assert h0 == [];
        assert h0 + (hx + rest) == hx + rest;
        assert h0 + rest == rest;
      }
    }
  }

  /** `order_component_list` gives the same entries, sorted by position, with
      entries of equal position in their merge order. */
  lemma {:induction false} SortByPositionCorrect(s: seq<Entry>)
    ensures SortedByPosition(SortByPosition(s))
    ensures multiset(SortByPosition(s)) == multiset(s)
    ensures forall p :: AtPosition(SortByPosition(s), p) == AtPosition(s, p)
  {
    if s != [] {
      SortByPositionCorrect(s[1..]);
      InsertSorted(s[0], SortByPosition(s[1..]));
      InsertPermutes(s[0], SortByPosition(s[1..]));
      forall p ensures AtPosition(SortByPosition(s), p) == AtPosition(s, p) {
        InsertStable(s[0], SortByPosition(s[1..]), p);
      }
      assert s == [s[0]] + s[1..];
    }
  }

  // ---------------------------------------------------------------------
  // Building the result

  /** A region with the components rendered in it. */
  datatype RegionComponentList = RegionComponentList(region: Region, data: seq<Renderable>)

  /** `RegionComponentList(region, data)`: the `None` entries are dropped and
      the rest keep their order. */
  function NewRegionComponentList(region: Region, data: seq<Option<Renderable>>): (l: RegionComponentList)
    ensures l.region == region && l.data == Somes(data)
    ensures forall x :: x in l.data <==> Some(x) in data
    ensures |l.data| <= |data|
  {
    SomesMembers(data);
    RegionComponentList(region, Somes(data))
  }

  /** `[c.resolve_component() for c in entries]`. */
  function ResolveAll(es: seq<Entry>, realInstance: nat -> Option<Renderable>): (rs: seq<Option<Renderable>>)
    ensures |rs| == |es|
    ensures forall i :: 0 <= i < |es| ==> rs[i] == ResolveComponent(es[i], realInstance)
  {
    if es == [] then [] else [ResolveComponent(es[0], realInstance)] + ResolveAll(es[1..], realInstance)
  }

  /** The value stored for one region: its components, ordered, resolved,
      without the ones that resolved to nothing. */
  function RegionList(region: Region, es: seq<Entry>, realInstance: nat -> Option<Renderable>): RegionComponentList
  {
    NewRegionComponentList(region, ResolveAll(SortByPosition(es), realInstance))
  }

  /** The closing dict comprehension of `get_components_for_regions`. */
  function Finish(acc: Acc, cache: RegionCache, realInstance: nat -> Option<Renderable>): (r: Result<map<string, RegionComponentList>, ViewError>)
    requires Consistent(cache)
    requires acc.Keys <= cache.byPk.Keys
    ensures r.Err? <==> exists k :: k in acc && acc[k].None?
    ensures r.Err? ==> r.error == InvalidExtendRule
    ensures r.Ok? ==> forall k :: k in acc ==>
      && cache.pkToSlug[k] in r.value
      && r.value[cache.pkToSlug[k]] == RegionList(cache.byPk[k], acc[k].value, realInstance)
    ensures r.Ok? ==> forall s :: s in r.value ==> exists k :: k in acc && cache.pkToSlug[k] == s
  {
    if exists k :: k in acc && acc[k].None? then Err(InvalidExtendRule)
    else
      Ok(map k | k in acc.Keys :: cache.pkToSlug[k] := RegionList(cache.byPk[k], acc[k].value, realInstance))
  }

  /** `get_components_for_regions()`, given the providers and the region
      cache it reads. */
  function ComponentsForRegions(providers: seq<Provider>, cache: RegionCache, realInstance: nat -> Option<Renderable>): (r: Result<map<string, RegionComponentList>, ViewError>)
    requires Consistent(cache)
    ensures Fold(ProviderMaps(providers), cache.byPk).Err? ==> r == Err(UnknownRegion)
    ensures Fold(ProviderMaps(providers), cache.byPk).Ok? ==>
      r == Finish(Fold(ProviderMaps(providers), cache.byPk).value, cache, realInstance)
  {
    var merged := Fold(ProviderMaps(providers), cache.byPk);
    if merged.Err? then Err(merged.error) else Finish(merged.value, cache, realInstance)
  }

  /** The whole of `get_components_for_regions`: read the two tables from
      the region manager (filling its cache if it is empty), fold the
      providers and build the result. */
  method GetComponentsForRegions(providers: seq<Provider>, manager: RegionManager, rows: seq<Region>,
                                 realInstance: nat -> Option<Renderable>)
    returns (r: Result<map<string, RegionComponentList>, ViewError>)
    requires UniqueKeys(rows)
    requires manager.cache.Some? ==> Consistent(manager.cache.value)
    modifies manager
    ensures manager.cache.Some? && Consistent(manager.cache.value)
    ensures old(manager.cache).Some? ==> manager.cache == old(manager.cache)
    ensures old(manager.cache).None? ==> manager.cache == Some(BuildCache(rows))
    ensures r == ComponentsForRegions(providers, manager.cache.value, realInstance)
  {
    BuildCacheConsistent(rows);
    var byPk := manager.RegionsByPk(rows);
    var pkToSlug := manager.RegionPkToSlug(rows);
    var merged := MergeProviders(ProviderMaps(providers), byPk);
    match merged
    case Err(e) =>
      r := Err(e);
    case Ok(acc) =>
      r := Finish(acc, manager.cache.value, realInstance);
  }

  // ---------------------------------------------------------------------
  // Default providers

  /** `LayoutMixin.get_component_providers` of the view: the layout chain,
      root first. */
  function LayoutProviders(layout: Layout): (ps: seq<Provider>)
    ensures |ps| == |ComponentProviders(layout)|
    ensures forall i :: 0 <= i < |ps| ==> ps[i] == RowsProvider(ComponentProviders(layout)[i].placements)
  {
    var ls := ComponentProviders(layout);
    seq(|ls|, i requires 0 <= i < |ls| => RowsProvider(ls[i].placements))
  }

  /** `get_hint_providers()`. */
  function DefaultHintProviders(layout: Layout): (ps: seq<HintProvider>)
    ensures ps == [LayoutHint(layout)]
  {
    [LayoutHint(layout)]
  }

  /** The hint providers `get_template_names` passes on: the object first. */
  function TemplateHintProviders(obj: HintProvider, hintProviders: seq<HintProvider>): (ps: seq<HintProvider>)
    ensures |ps| == |hintProviders| + 1 && ps[0] == obj && ps[1..] == hintProviders
  {
    [obj] + hintProviders
  }

  /** With the default hint providers, the object's own hints come first,
      then one hint per layout of the chain, most specific first. */
  lemma DefaultTemplateHints(obj: HintProvider, layout: Layout)
    ensures FlatHints(TemplateHintProviders(obj, DefaultHintProviders(layout))) == Hints(obj) + LayoutHints(layout)
  {
    var ps := [obj, LayoutHint(layout)];
    assert FlatHints(ps) == Hints(obj) + FlatHints([LayoutHint(layout)]);
    assert FlatHints([LayoutHint(layout)]) == LayoutHints(layout) + FlatHints([]);
    assert LayoutHints(layout) + [] == LayoutHints(layout);
  }
}

/** Worked cases of the merge. */
module ViewScenarios {
  import opened Wrappers
  import opened Components
  import opened Regions
  import opened Layouts
  import opened Views

  /** A single-row provider lists that row under its region. */
  lemma GroupedSingle(p: Placement)
    ensures Grouped([p]) == map[p.regionId := [Placed(p)]]
  {
    var noRows: seq<Placement> := [];
    var empty: seq<Entry> := [];
    assert [p][..0] == noRows;
    assert Grouped(noRows) == map[];
    assert empty + [Placed(p)] == [Placed(p)];
  }

  lemma TwoRowProviders(a: Placement, b: Placement)
    ensures ProviderMaps([RowsProvider([a]), RowsProvider([b])]) ==
      [map[a.regionId := [Placed(a)]], map[b.regionId := [Placed(b)]]]
  {
    GroupedSingle(a);
    GroupedSingle(b);
  }

  /** Two single-entry providers for one `combine` region merge in order. */
  lemma CombineTwo(region: Region, x: Entry, y: Entry)
    requires region.componentExtendRule == Combine
    ensures
      var m1: RegionMap := map[region.pk := [x]];
      var m2: RegionMap := map[region.pk := [y]];
      Fold([m1, m2], map[region.pk := region]) == Ok(map[region.pk := Some([x, y])])
  {
    var byPk := map[region.pk := region];
    var m1: RegionMap := map[region.pk := [x]];
    var m2: RegionMap := map[region.pk := [y]];
    var none: seq<RegionMap> := [];
    assert [m1, m2][..1] == [m1] && [m1][..0] == none;
    var acc1: Acc := map[region.pk := Some([x])];
    var start: Acc := map[];
    var empty: seq<Entry> := [];
    assert Current(start, region.pk) == empty && empty + [x] == [x];
    assert MergeInto(start, m1, byPk) == acc1;
    assert Fold([m1], byPk) == Ok(acc1);
    var acc2 := MergeInto(acc1, m2, byPk);
    assert Current(acc1, region.pk) == [x];
    assert [x] + [y] == [x, y];
    assert acc2 == map[region.pk := Some([x, y])];
  }

  /** With `combine`, a layout placement and a page placement in the same
      region are merged layout first. */
  lemma CombineScenarioFold(sidebar: Region, fromLayout: Placement, fromPage: Placement)
    requires sidebar == Region(1, "Sidebar", "sidebar", Combine, 0)
    requires fromLayout.regionId == 1 && fromPage.regionId == 1
    ensures
      var ms := ProviderMaps([RowsProvider([fromLayout]), RowsProvider([fromPage])]);
      Fold(ms, BuildCache([sidebar]).byPk) == Ok(map[1 := Some([Placed(fromLayout), Placed(fromPage)])])
  {
    assert [sidebar][..0] == [];
    assert BuildCache([sidebar]).byPk == map[1 := sidebar];
    TwoRowProviders(fromLayout, fromPage);
    CombineTwo(sidebar, Placed(fromLayout), Placed(fromPage));
  }

  /** Ordering puts the lower position first. */
  lemma TwoEntrySort(a: Entry, b: Entry)
    requires Position(b) < Position(a)
    ensures SortByPosition([a, b]) == [b, a]
  {
    var both := [a, b];
    assert both[1..] == [b] && both[1..][1..] == [];
    assert SortByPosition([b]) == [b];
    assert Insert(a, [b]) == [b] + Insert(a, []);
  }

  /** Sorting happens after all providers are folded: with `combine`, a
      layout component at position 5 and a page component at position 1 end
      up page first. */
  lemma SortAfterMerge()
    ensures
      var sidebar := Region(1, "Sidebar", "sidebar", Combine, 0);
      var fromLayout := Placement(1, 10, 5);
      var fromPage := Placement(1, 20, 1);
      var cache := BuildCache([sidebar]);
      var ms := ProviderMaps([RowsProvider([fromLayout]), RowsProvider([fromPage])]);
      && Fold(ms, cache.byPk) == Ok(map[1 := Some([Placed(fromLayout), Placed(fromPage)])])
      && SortByPosition([Placed(fromLayout), Placed(fromPage)]) == [Placed(fromPage), Placed(fromLayout)]
  {
    var fromLayout := Placement(1, 10, 5);
    var fromPage := Placement(1, 20, 1);
    CombineScenarioFold(Region(1, "Sidebar", "sidebar", Combine, 0), fromLayout, fromPage);
    TwoEntrySort(Placed(fromLayout), Placed(fromPage));
  }
}
