/** The `render_component` template tag of
    django_mc/templatetags/django_mc_component_tags.py: parsing its tokens,
    and the part of rendering that decides the hint providers, the values
    pushed onto the template context and that the context is restored. */
module ComponentTags {
  import opened Wrappers
  import opened Seqs
  import opened Components
  import opened TemplateHints

  const ForKeyword: string := "for"
  /** The context variable through which nested tags see the providers. */
  const ParentHintProvider: string := "PARENT_HINT_PROVIDER"

  /** `IndexError` of the second `pop(0)` when the tag names no component,
      and the `TemplateSyntaxError` for a second argument other than `for`. */
  datatype TagError = MissingComponent | SecondArgumentNotFor

  /** A parsed tag: the component variable and the hint-provider variables,
      as the token text that names them. */
  datatype RenderComponentNode = RenderComponentNode(componentVar: string, hintProviders: seq<string>)

  /** `RenderComponentNode.parse`, consuming the token list front first.
      `tokens` is `token.split_contents()`, which always starts with the tag
      name. */
  method ParseRenderComponent(tokens: seq<string>) returns (r: Result<RenderComponentNode, TagError>)
    requires |tokens| > 0
    ensures |tokens| == 1 <==> r == Err(MissingComponent)
    ensures |tokens| == 2 ==> r == Ok(RenderComponentNode(tokens[1], []))
    ensures |tokens| > 2 && tokens[2] != ForKeyword ==> r == Err(SecondArgumentNotFor)
    ensures |tokens| > 2 && tokens[2] == ForKeyword ==> r == Ok(RenderComponentNode(tokens[1], tokens[3..]))
  {
    var rest := tokens;
    rest := rest[1..];
    if rest == [] {
      return Err(MissingComponent);
    }
    var componentVar := rest[0];
    rest := rest[1..];
    var providers: seq<string>;
    if |rest| > 0 {
      if rest[0] != ForKeyword {
        return Err(SecondArgumentNotFor);
      }
      rest := rest[1..];
      providers := rest;
    } else {
      providers := [];
    }
    r := Ok(RenderComponentNode(componentVar, providers));
  }

  /** The hint providers the tag keeps: a falsy resolved value (`None`, an
      empty string or list) is `None` here and is dropped; the rest keep
      their order. */
  function TruthyProviders(resolved: seq<Option<HintProvider>>): (ps: seq<HintProvider>)
    ensures |ps| <= |resolved|
    ensures forall p :: p in ps <==> Some(p) in resolved
    ensures (forall i :: 0 <= i < |resolved| ==> resolved[i].Some?) ==>
      |ps| == |resolved| && forall i :: 0 <= i < |ps| ==> Some(ps[i]) == resolved[i]
  {
    SomesMembers(resolved);
    SomesAllPresent(resolved);
    Somes(resolved)
  }

  /** The providers kept from one part and then another are those kept from
      the whole; a single `None` is dropped and a single provider kept, so
      the kept providers are in their given order, each as often as given. */
  lemma TruthyProvidersAppend(a: seq<Option<HintProvider>>, b: seq<Option<HintProvider>>)
    ensures TruthyProviders(a + b) == TruthyProviders(a) + TruthyProviders(b)
    ensures TruthyProviders([None]) == []
    ensures forall p :: TruthyProviders([Some(p)]) == [p]
  {
    SomesAppend(a, b);
  }

  /** A value in the template context: a hint provider, or any other value,
      kept opaque. */
  datatype ContextValue = HintValue(provider: HintProvider) | DataValue(data: string)

  /** `component.get_template_names(hint_providers=...)`: a fake component
      names its one template; a concrete component asks its own
      `get_template_names` (`concreteNames`). */
  function TemplateNames(component: Renderable, providers: seq<HintProvider>,
                         concreteNames: seq<HintProvider> -> seq<string>): (names: seq<string>)
    ensures component.FakeInstance? ==> names == [component.fake.templateName]
    ensures component.Concrete? ==> names == concreteNames(providers)
  {
    match component
    case FakeInstance(f) => FakeTemplateNames(f, providers)
    case Concrete(_, _) => concreteNames(providers)
  }

  /** `component.get_context_data()`: empty for a fake component. */
  function ComponentData(component: Renderable, concreteData: map<string, ContextValue>): (m: map<string, ContextValue>)
    ensures component.FakeInstance? ==> m == map[]
    ensures component.Concrete? ==> m == concreteData
  {
    match component
    case FakeInstance(f) => FakeContextData(f)
    case Concrete(_, _) => concreteData
  }

  /** `component_context`: what the composite suggests, then
      `PARENT_HINT_PROVIDER`, then the component's own data, each later one
      winning on a shared key. */
  function ComponentFrame(providers: seq<HintProvider>, suggested: map<string, ContextValue>,
                          data: map<string, ContextValue>): (frame: map<string, ContextValue>)
    ensures frame.Keys == suggested.Keys + {ParentHintProvider} + data.Keys
    ensures ParentHintProvider !in data ==> frame[ParentHintProvider] == HintValue(Composite(providers))
    ensures forall k :: k in data ==> frame[k] == data[k]
    ensures forall k :: k in suggested && k != ParentHintProvider && k !in data ==> frame[k] == suggested[k]
  {
    suggested[ParentHintProvider := HintValue(Composite(providers))] + data
  }

  datatype RenderError = TemplateDoesNotExist | RenderFailed

  /** Django's template `Context`: a stack of dictionaries. */
  class TemplateContext {
    var dicts: seq<map<string, ContextValue>>

    constructor (builtins: map<string, ContextValue>)
      ensures dicts == [builtins]
    {
      dicts := [builtins];
    }

    /** `context.update(values)`: push a new dictionary. */
    method Push(values: map<string, ContextValue>)
      modifies this
      ensures dicts == old(dicts) + [values]
    {
      dicts := dicts + [values];
    }

    /** `context.pop()`, which refuses to remove the last dictionary. */
    method Pop()
      requires |dicts| > 1
      modifies this
      ensures dicts == old(dicts)[..|old(dicts)| - 1]
    {
      dicts := dicts[..|dicts| - 1];
    }
  }

  /** `RenderComponentNode.render`, given the already resolved component and
      hint-provider values. `renderTemplate` stands for `render_to_string`,
      applied to the candidate names and the context stack; whatever it
      gives, the pushed dictionary is popped again (`finally`). */
  method Render(context: TemplateContext, component: Renderable, resolved: seq<Option<HintProvider>>,
                suggested: map<string, ContextValue>,
                concreteNames: seq<HintProvider> -> seq<string>,
                concreteData: map<string, ContextValue>,
                renderTemplate: (seq<string>, seq<map<string, ContextValue>>) -> Result<string, RenderError>)
    returns (r: Result<string, RenderError>)
    requires |context.dicts| > 0
    modifies context
    ensures context.dicts == old(context.dicts)
    ensures
      var providers := TruthyProviders(resolved);
      r == renderTemplate(
        TemplateNames(component, providers, concreteNames),
        old(context.dicts) + [ComponentFrame(providers, suggested, ComponentData(component, concreteData))])
  {
    var providers := TruthyProviders(resolved);
    var names := TemplateNames(component, providers, concreteNames);
    var frame := ComponentFrame(providers, suggested, ComponentData(component, concreteData));
    context.Push(frame);
    r := renderTemplate(names, context.dicts);
    context.Pop();
    assert context.dicts == old(context.dicts);
  }
}
