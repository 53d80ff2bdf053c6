/** Component placements and the renderable components they resolve to:
    the `RegionComponentBase` row of django_mc/models.py, the component
    base's template basename, and `FixedTemplateFakeComponent` of
    django_mc/utils.py. */
module Components {
  import opened Wrappers

  /** Primary key of a `Region`. */
  type RegionId = nat

  /** A row of a provider's region-component table: the region, the component
      placed there and its position. */
  datatype Placement = Placement(regionId: RegionId, componentId: nat, position: int)

  /** A component that always renders one fixed template. */
  datatype FakeComponent = FakeComponent(templateName: string, position: int)

  /** Whatever a provider lists under a region: a placement row, or (for the
      extras a view adds by hand) a fake component. */
  datatype Entry = Placed(placement: Placement) | Fake(fake: FakeComponent)

  /** What `resolve_component()` gives: the concrete component model
      instance (its id and model class name), or the fake component itself. */
  datatype Renderable = Concrete(componentId: nat, objectName: string) | FakeInstance(fake: FakeComponent)

  /** `FixedTemplateFakeComponent(template_name, position=0)`. */
  function NewFakeComponent(templateName: string, position: int := 0): (f: FakeComponent)
    ensures f.templateName == templateName && f.position == position
  {
    FakeComponent(templateName, position)
  }

  /** The sort key `order_component_list` uses. */
  function Position(e: Entry): int
  {
    match e
    case Placed(p) => p.position
    case Fake(f) => f.position
  }

  /** `c.resolve_component()`. A placement asks the polymorphic loader
      (`realInstance`, which may come back empty); a fake component is its
      own resolution. */
  function ResolveComponent(e: Entry, realInstance: nat -> Option<Renderable>): (r: Option<Renderable>)
    ensures e.Fake? ==> r == Some(FakeInstance(e.fake))
    ensures e.Placed? ==> r == realInstance(e.placement.componentId)
  {
    match e
    case Placed(p) => realInstance(p.componentId)
    case Fake(f) => Some(FakeInstance(f))
  }

  /** `FixedTemplateFakeComponent.get_template_names`: the one template,
      whatever hint providers are passed. */
  function FakeTemplateNames<H>(f: FakeComponent, hintProviders: seq<H>): (names: seq<string>)
    ensures names == [f.templateName]
  {
    [f.templateName]
  }

  /** `FixedTemplateFakeComponent.get_context_data`: nothing. */
  function FakeContextData<V>(f: FakeComponent): (m: map<string, V>)
    ensures m == map[]
  {
    map[]
  }

  /** ASCII lower-casing of one character. */
  function LowerChar(c: char): (d: char)
    ensures 'A' <= c <= 'Z' ==> d as int == c as int + 32
    ensures !('A' <= c <= 'Z') ==> d == c
    ensures !('A' <= d <= 'Z')
  {
    if 'A' <= c <= 'Z' then (c as int + 32) as char else c
  }

  function Lower(s: string): (r: string)
    ensures |r| == |s|
    ensures forall i :: 0 <= i < |s| ==> r[i] == LowerChar(s[i])
  {
    if s == [] then [] else [LowerChar(s[0])] + Lower(s[1..])
  }

  /** `get_template_basename()`: the lower-cased model class name with
      `.html` appended. */
  function TemplateBasename(objectName: string): (r: string)
    ensures |r| == |objectName| + 5
    ensures r[|objectName|..] == ".html"
    ensures forall i :: 0 <= i < |objectName| ==> r[i] == LowerChar(objectName[i]) && !('A' <= r[i] <= 'Z')
  {
    Lower(objectName) + ".html"
  }

  /** Lower-casing twice is lower-casing once, so two class names that differ
      only in case share a basename. */
  lemma {:induction false} LowerIdempotent(s: string)
    ensures Lower(Lower(s)) == Lower(s)
  {
    if s != [] {
      LowerIdempotent(s[1..]);
      assert Lower(s)[1..] == Lower(s[1..]);
    }
  }
}
