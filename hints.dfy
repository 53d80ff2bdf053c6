/** Template hint providers: what `get_template_hints` gives for the
    providers this model knows. Layouts and regions follow
    django_mc/models.py; a composite provider concatenates the hints of its
    members in order; any other provider is known only by the hints it
    gives. */
module TemplateHints {
  import opened Seqs
  import opened Regions
  import opened Layouts

  datatype HintProvider =
    | LayoutHint(layout: Layout)
    | RegionHint(region: Region)
    | Composite(members: seq<HintProvider>)
    | Opaque(hints: seq<string>)

  function Hints(p: HintProvider): seq<string>
    decreases p, 1
  {
    match p
    case LayoutHint(l) => LayoutHints(l)
    case RegionHint(r) => RegionHints(r)
    case Composite(ps) => FlatHints(ps)
    case Opaque(hs) => hs
  }

  /** The hints of a list of providers, one provider after the other
      (`flatten(p.get_template_hints(...) for p in providers)`). */
  function FlatHints(ps: seq<HintProvider>): seq<string>
    decreases ps, 0
  {
    if ps == [] then [] else Hints(ps[0]) + FlatHints(ps[1..])
  }

  /** Hints of a concatenation of provider lists are the concatenated hints. */
  lemma {:induction false} FlatHintsAppend(a: seq<HintProvider>, b: seq<HintProvider>)
    ensures FlatHints(a + b) == FlatHints(a) + FlatHints(b)
  {
    if a == [] {
      assert a + b == b;
    } else {
      assert (a + b)[1..] == a[1..] + b;
      FlatHintsAppend(a[1..], b);
    }
  }

  /** A composite of one provider gives that provider's hints, and nesting
      composites gives the hints of all their members in order (which is how
      `PARENT_HINT_PROVIDER` passes an outer tag's providers to an inner one). */
  lemma CompositeFlattens(p: HintProvider, a: seq<HintProvider>, b: seq<HintProvider>)
    ensures Hints(Composite([p])) == Hints(p)
    ensures Hints(Composite([Composite(a), Composite(b)])) == FlatHints(a + b)
  {
    assert FlatHints([p]) == Hints(p) + FlatHints([]);
    assert Hints(p) + [] == Hints(p);
    var ab := [Composite(a), Composite(b)];
    assert FlatHints(ab) == Hints(Composite(a)) + FlatHints([Composite(b)]);
    assert FlatHints([Composite(b)]) == Hints(Composite(b)) + FlatHints([]);
    assert FlatHints(b) + [] == FlatHints(b);
    FlatHintsAppend(a, b);
  }
}
