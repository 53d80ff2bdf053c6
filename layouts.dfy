/** Layouts and component providers from django_mc/models.py: the parent
    chain walks of `LayoutMixin`, and the grouping of a provider's placement
    rows by region (`RegionComponentProvider.get_components_by_region`).

    A layout holds its parent as a value, so every chain is finite and the
    recursive walks terminate; a cyclic `parent` chain, on which the source
    recurses without end, cannot be built. */
module Layouts {
  import opened Wrappers
  import opened Seqs
  import opened Components

  /** A layout: its key, its slug, the placement rows of its intermediary
      table (as `visible()` yields them) and its parent. */
  datatype Layout = Layout(pk: nat, slug: string, placements: seq<Placement>, parent: Option<Layout>)

  /** The layout and its ancestors, most specific first. */
  function Ancestry(l: Layout): (chain: seq<Layout>)
    ensures |chain| > 0 && chain[0] == l
    ensures chain[|chain| - 1].parent.None?
    ensures forall i :: 0 <= i < |chain| - 1 ==> chain[i].parent == Some(chain[i + 1])
  {
    match l.parent
    case None => [l]
    case Some(p) => [l] + Ancestry(p)
  }

  /** `LayoutMixin.get_template_hints`: `layout-<slug>` followed by the
      parent's hints. */
  function LayoutHints(l: Layout): (hints: seq<string>)
    ensures |hints| > 0 && hints[0] == "layout-" + l.slug
  {
    ["layout-" + l.slug] + (match l.parent case None => [] case Some(p) => LayoutHints(p))
  }

  /** The hints name the ancestor chain in order, one hint per layout, most
      specific first. */
  lemma {:induction false} LayoutHintsFollowChain(l: Layout)
    ensures |LayoutHints(l)| == |Ancestry(l)|
    ensures forall i :: 0 <= i < |Ancestry(l)| ==> LayoutHints(l)[i] == "layout-" + Ancestry(l)[i].slug
  {
    match l.parent
    case None =>
    case Some(p) =>
      LayoutHintsFollowChain(p);
      assert forall i :: 1 <= i < |Ancestry(l)| ==> Ancestry(l)[i] == Ancestry(p)[i - 1];
      assert forall i :: 1 <= i < |Ancestry(l)| ==> LayoutHints(l)[i] == LayoutHints(p)[i - 1];
  }

  /** `LayoutMixin.get_component_providers` as written: the parent is
      followed only when `self.parent_id` is truthy, that is when the parent's
      key is not 0. */
  function ComponentProvidersAsWritten(l: Layout): (ps: seq<Layout>)
    ensures |ps| > 0 && ps[|ps| - 1] == l
  {
    if l.parent.Some? && l.parent.value.pk != 0 then ComponentProvidersAsWritten(l.parent.value) + [l] else [l]
  }

  /** A parent whose key is 0 is dropped from the providers, although
      `get_template_hints`, which tests `self.parent`, still names it. */
  lemma ZeroKeyParentDropped()
    ensures var child := Layout(1, "c", [], Some(Layout(0, "p", [], None)));
      && ComponentProvidersAsWritten(child) == [child]
      && |LayoutHints(child)| == 2
      && ComponentProviders(child) == [child.parent.value, child]
  {
  }

  /** Every ancestor above `l` has a non-zero key. */
  predicate NonZeroAncestors(l: Layout)
  {
    forall i :: 1 <= i < |Ancestry(l)| ==> Ancestry(l)[i].pk != 0
  }

  /** Where no ancestor has key 0, the code as written and the walk over
      every parent agree. */
  lemma {:induction false} AsWrittenAgrees(l: Layout)
    requires NonZeroAncestors(l)
    ensures ComponentProvidersAsWritten(l) == ComponentProviders(l)
  {
    match l.parent
    case None =>
    case Some(p) =>
      assert Ancestry(l)[1] == p;
      assert forall i :: 1 <= i < |Ancestry(p)| ==> Ancestry(p)[i] == Ancestry(l)[i + 1];
      AsWrittenAgrees(p);
  }

  /** `LayoutMixin.get_component_providers` as evidently intended: the
      parent's providers, whenever there is a parent, followed by the layout
      itself. */
  function ComponentProviders(l: Layout): (ps: seq<Layout>)
    ensures |ps| > 0 && ps[|ps| - 1] == l
  {
    match l.parent
    case None => [l]
    case Some(p) => ComponentProviders(p) + [l]
  }

  /** The providers are the ancestor chain reversed: root first, the layout
      itself last. */
  lemma {:induction false} ProvidersReverseChain(l: Layout)
    ensures ComponentProviders(l) == Reverse(Ancestry(l))
    ensures ComponentProviders(l)[0].parent.None?
  {
    match l.parent
    case None =>
      assert Reverse([l]) == Reverse([l][1..]) + [l];
    case Some(p) =>
      ProvidersReverseChain(p);
      assert Ancestry(l)[1..] == Ancestry(p);
      ReverseAt(Ancestry(p));
      ReverseAt(Ancestry(l));
  }

  /** The placements of `rows` that belong to `region`, in order. */
  function OfRegion(rows: seq<Placement>, region: RegionId): (r: seq<Entry>)
    ensures |r| <= |rows|
  {
    if rows == [] then []
    else
      var rest := OfRegion(rows[..|rows| - 1], region);
      var last := rows[|rows| - 1];
      if last.regionId == region then rest + [Placed(last)] else rest
  }

  /** The `setdefault(region_id, []).append(row)` loop over `rows`, as a
      function of the rows seen so far. */
  function Grouped(rows: seq<Placement>): map<RegionId, seq<Entry>>
  {
    if rows == [] then map[]
    else
      var m := Grouped(rows[..|rows| - 1]);
      var last := rows[|rows| - 1];
      m[last.regionId := (if last.regionId in m then m[last.regionId] else []) + [Placed(last)]]
  }

  /** `get_components_by_region()`: the regions with at least one row are the
      keys, and each lists exactly its own rows in query order; no list is
      empty. */
  lemma {:induction false} GroupedIsFilter(rows: seq<Placement>)
    ensures forall k :: k in Grouped(rows) <==> OfRegion(rows, k) != []
    ensures forall k :: k in Grouped(rows) ==> Grouped(rows)[k] == OfRegion(rows, k)
    ensures forall k :: k in Grouped(rows) ==> Grouped(rows)[k] != []
  {
    if rows != [] {
      GroupedIsFilter(rows[..|rows| - 1]);
    }
  }

  /** No row is lost: each one is listed under its own region. */
  lemma {:induction false} RowListedUnderItsRegion(rows: seq<Placement>, i: nat)
    requires i < |rows|
    ensures Placed(rows[i]) in OfRegion(rows, rows[i].regionId)
  {
    var init := rows[..|rows| - 1];
    if i < |rows| - 1 {
      RowListedUnderItsRegion(init, i);
      assert init[i] == rows[i];
    }
  }

  /** The grouping loop of `get_components_by_region`. */
  method GroupByRegion(rows: seq<Placement>) returns (regions: map<RegionId, seq<Entry>>)
    ensures regions == Grouped(rows)
    ensures forall k :: k in regions <==> OfRegion(rows, k) != []
    ensures forall k :: k in regions ==> regions[k] == OfRegion(rows, k)
  {
    regions := map[];
    var i := 0;
    while i < |rows|
      invariant 0 <= i <= |rows|
      invariant regions == Grouped(rows[..i])
    {
      var row := rows[i];
      var list := if row.regionId in regions then regions[row.regionId] else [];
      regions := regions[row.regionId := list + [Placed(row)]];
      assert rows[..i + 1][..i] == rows[..i];
      i := i + 1;
    }
    assert rows[..i] == rows;
    GroupedIsFilter(rows);
  }
}
