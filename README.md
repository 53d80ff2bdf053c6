# django_mc core in Dafny

This project models the core of django_mc, a Django add-on that composes
pages from components placed in regions, and proves properties of that
model. The core has two parts.

- **Links.** A link reference is one of three things:
  - a URL, `<scheme>://...`;
  - an absolute path, `/...`;
  - an object reference, `<type>/<id>`. It is resolved through a registry of type-keyed resolvers.

  `Link` caches the URL it resolves to. `LinkField` converts between stored
  text and `Link` values. The `resolve_link` template tag resolves a
  reference afresh each time and never caches.
- **Layouts and regions.**
  - A layout chain and a page each place components in regions.
  - A view folds each provider's per-region lists into one map. The order is: the layout's parents first, then the layout, the page object and the view's own extras.
  - Each region's extend rule (`combine` or `overwrite`) decides how a later list changes an earlier one.
  - The merged lists are sorted stably by position, resolved to concrete components, and keyed by region slug.
  - Two template tags handle rendering. `hinted_include` expands template names with template hints. `render_component` renders one component with a stack of hint providers.

Modules and files:

| file | module | models |
|---|---|---|
| wrappers.dfy | `Wrappers` | `Option`, `Result` |
| seqs.dfy | `Seqs` | flattening, dropping `None`s, reversal |
| link_pattern.dfy | `LinkPattern` | `LINK_REFERENCE_REGEX` and `get_object_reference_regex` (link/pattern.py) |
| link_registry.dfy | `LinkRegistry` | `Registry` (link/registry.py), as a class |
| link_fields.dfy | `LinkFields` | `Link` as a class with its URL cache, and the `LinkField` conversions (link/fields.py) |
| link_tags.dfy | `LinkTags` | `resolve_link` (link/templatetags/django_mc_link_tags.py) |
| components.dfy | `Components` | placements, `FixedTemplateFakeComponent` (utils.py), `resolve_component`, `get_template_basename` |
| regions.dfy | `Regions` | `Region.extend_components`, `Region.get_template_hints`, `RegionManager` and its cache (a class) |
| layouts.dfy | `Layouts` | `LayoutMixin` chain walks, `get_components_by_region` (a method with a loop) |
| hints.dfy | `TemplateHints` | the hint providers the core knows |
| views.dfy | `Views`, `ViewScenarios` | `views.LayoutMixin`: merge, ordering, result, hint providers |
| pageview.dfy | `PageViews` | `PageView` (generic/pageview.py), as a class |
| include_tags.dfy | `IncludeTags` | `hinted_include` parse and candidate names |
| component_tags.dfy | `ComponentTags` | `render_component` parse and render, with the template context as a class |

Where the source relies on the outside world, the model takes it as a parameter:

| outside world | parameter |
|---|---|
| database queries | the rows they return (`rows: seq<Region>`, a layout's `placements`) |
| the polymorphic component loader | `realInstance` |
| the resolver plug-ins | `Resolver` values of total functions |
| template loading and rendering | `renderTemplate` |
| the concrete components' own `get_template_names` / `get_context_data` | `concreteNames` / `concreteData` |
| the composite provider's `suggest_context_data` | `suggested` |

The model follows the code in these places:

- A region id that the region cache does not know is not skipped. It raises the `KeyError` of django_mc/views.py:118, which is `Err(UnknownRegion)` here.
- An extend rule other than `combine`/`overwrite` is a possible state of the data. `extend_components` then returns `None`. The later `sorted(None)` raises a `TypeError`, which is `Err(InvalidExtendRule)` here.
- `Link.resolve()` on a URL or path link has no `object_type` to read, so it raises `AttributeError`. That is `Err(NotAnObjectReference)` here.
- Only the object alternative of `LINK_REFERENCE_REGEX` carries the trailing `$`. `re.match` anchors every alternative at the start, and `.` stops at a newline. So `http://x\ny` is a URL reference whose URL is `http://x`.

## Model

| member | source | states |
|---|---|---|
| LinkPattern.Span | django_mc/link/pattern.py:17-19 | the greedy run of a character class: every character it covers is in the class, and the next one is not |
| LinkPattern.FirstLine | django_mc/link/pattern.py:17-18 | what `.*` / `.+` consume: a newline-free prefix that stops only at a newline or at the end |
| LinkPattern.UrlRecognised | django_mc/link/pattern.py:15-17 | every `\w+://` followed by a non-newline character is a URL reference, and its URL is the first line |
| LinkPattern.PathRecognised | django_mc/link/pattern.py:15-18 | every string starting with `/` that is not a URL is a path reference, and its path is the first line |
| LinkPattern.ObjRecognised | django_mc/link/pattern.py:4-9 | every `[-a-z]+` type, `/` and non-empty single-line id, with or without one final newline, is that object reference |
| LinkPattern.UrlSound | django_mc/link/pattern.py:15-17 | a URL classification captures the first line, and that first line matches `\w+://.+` |
| LinkPattern.PathSound | django_mc/link/pattern.py:15-18 | a path classification captures the first line of a string that starts with `/` |
| LinkPattern.ObjSound | django_mc/link/pattern.py:4-9 | an object classification has a `[-a-z]+` type and a non-empty single-line id, and the input is exactly `type/id`, optionally followed by one newline |
| LinkPattern.Classify | django_mc/link/pattern.py:15-20 | `re.match` of `LINK_REFERENCE_REGEX`, the alternatives tried in order; the `Recognised` and `Sound` lemmas state which inputs give each result and what it captures |
| LinkPattern.NoMatchExamples | django_mc/link/pattern.py:15-20 | the empty string, an upper-case type, an empty id and a scheme containing `-` match no alternative |
| LinkPattern.MatchWithTypeSound | django_mc/link/pattern.py:30-32 | with a literal type, a match captures that type and a non-empty single-line id that make up the input |
| LinkPattern.MatchWithTypeComplete | django_mc/link/pattern.py:30-32 | with a literal type, `type/id` (optionally followed by one newline) matches with exactly that type and id |
| LinkPattern.OtherKeyDoesNotMatch | django_mc/link/pattern.py:26-32 | a different slash-free registered key does not match a `t/id` reference |
| LinkPattern.MatchRegisteredSound | django_mc/link/pattern.py:23-32 | the registered-type pattern captures only a registered key (or the empty type, which `'\|'.join([])` admits when nothing is registered) |
| LinkPattern.FirstAlternative | django_mc/link/pattern.py:26-32 | the alternation of the escaped keys, tried in key order with backtracking into the next key; `FirstAlternativeSound`/`Accepts`/`Complete` state what it captures |
| LinkPattern.MatchRegisteredReference | django_mc/link/pattern.py:23-32 | the registered-type pattern matched as the `^...$` rewrite of django_mc/link/text_filters.py:22 uses it; `MatchRegisteredSound`, `MatchRegisteredAccepts` and `MatchRegisteredComplete` state its results |
| LinkPattern.MatchRegisteredAccepts | django_mc/link/pattern.py:23-32 | every `key/id` with a registered key and a non-empty single-line id is accepted, whatever the keys are |
| LinkPattern.MatchRegisteredComplete | django_mc/link/pattern.py:23-32 | when no registered key contains `/`, `key/id` gives back exactly that key and id |
| LinkRegistry.Registry.constructor | django_mc/link/registry.py:13-14 | a new registry is empty |
| LinkRegistry.Registry.Register | django_mc/link/registry.py:16-17 | the type now maps to the resolver, replacing an earlier one; nothing else changes; a new type goes last in iteration order |
| LinkRegistry.Registry.Resolve | django_mc/link/registry.py:19-25 | an unregistered type, and any failure of the resolver, are `ResolveError`; otherwise the resolver's URL |
| LinkRegistry.UnregisteredAlwaysFails | django_mc/link/registry.py:20-21 | resolving an unregistered type fails whatever the id |
| LinkRegistry.Registry.Reverse | django_mc/link/registry.py:27-34 | the loop with early return computes the first-handler search, and fails only with `ReverseResolveError` |
| LinkRegistry.Registry.ReverseFrom | django_mc/link/registry.py:27-34 | the first-handler search from index `i` of the iteration order, the reference `Reverse` is proved against; the `Reverse...` lemmas state its results |
| LinkRegistry.Registry.ReverseFailsIffUnhandled | django_mc/link/registry.py:27-34 | `reverse` fails exactly when no registered resolver handles the object |
| LinkRegistry.Registry.ReverseFindsFirstHandler | django_mc/link/registry.py:28-32 | on success the result is `type/id` of the first handling resolver in iteration order |
| LinkRegistry.Registry.ReverseSkips | django_mc/link/registry.py:28-32 | resolvers before the first handler are skipped |
| LinkRegistry.Registry.ReverseRoundTrip | django_mc/link/registry.py:27-32 | `reverse` output with a `[-a-z]+` type and a single-line id is classified back as that object reference |
| LinkFields.InitialUrl | django_mc/link/fields.py:33-40 | URL and path links start with their URL cached, object links without |
| LinkFields.Link.constructor | django_mc/link/fields.py:24-40 | a link keeps its reference and its classification, with the initial cache |
| LinkFields.NewLink | django_mc/link/fields.py:24-31 | `Link(reference)` fails (`ValueError`) exactly when the reference matches no alternative |
| LinkFields.Link.Len | django_mc/link/fields.py:50-51 | the length of the reference, which is never zero for a valid link |
| LinkFields.Link.Equals | django_mc/link/fields.py:53-56 | equal exactly to another `Link` with the same reference; the cache plays no part |
| LinkFields.Link.Resolve | django_mc/link/fields.py:58-61 | the registry's answer is returned and cached; a failure propagates and leaves the cache alone; a URL or path link cannot resolve |
| LinkFields.Link.Exists | django_mc/link/fields.py:63-70 | true with a cached URL; otherwise true exactly when resolving succeeds, caching on success |
| LinkFields.Link.Url | django_mc/link/fields.py:72-79 | the cached URL, or the freshly resolved and cached one, or `''` without caching on failure |
| LinkFields.ToPython | django_mc/link/fields.py:128-136 | falsy values and links unchanged; a matching string becomes a fresh valid link; any other string is kept verbatim |
| LinkFields.GetPrepValue | django_mc/link/fields.py:138-143 | a link is stored as its reference text; other values as they are |
| LinkFields.PrepThenLoad | django_mc/link/fields.py:128-143 | storing a link and loading it back gives a link equal to it, in both directions |
| LinkTags.ResolveLink | django_mc/link/templatetags/django_mc_link_tags.py:12-25 | `''` for no match; the URL or path as captured; for an object reference, the registry's URL, or `''` on `ResolveError` |
| LinkTags.FirstUrlReadAgrees | django_mc/link/templatetags/django_mc_link_tags.py:12-25 | for every valid reference, the tag gives what the first read of `Link(reference).url` gives; a `Link` cannot be built exactly when the tag gives `''` for no match |
| Components.NewFakeComponent | django_mc/utils.py:1-4 | a fake component keeps its template name, with position 0 by default |
| Components.ResolveComponent | django_mc/utils.py:6-7 | a fake component resolves to itself; a placement resolves to its component's real instance (models.py:167-168, 312-317) |
| Components.FakeTemplateNames | django_mc/utils.py:9-10 | a fake component names its one template, whatever the hint providers |
| Components.FakeContextData | django_mc/utils.py:12-13 | a fake component adds no context data |
| Components.TemplateBasename | django_mc/models.py:319-320 | the lower-cased model name followed by `.html`, five characters longer, every letter lower case |
| Components.Lower | django_mc/models.py:320 | `str.lower` on ASCII: same length, and each character lowered on its own |
| Components.LowerIdempotent | django_mc/models.py:319-320 | lowering twice is lowering once |
| Regions.RegionHints | django_mc/models.py:82-83 | a region's one hint is `region-<slug>` |
| Regions.ExtendComponents | django_mc/models.py:85-102 | `overwrite` keeps the second list when it is non-empty and the first otherwise; `combine` concatenates; any other rule gives `None` |
| Regions.CombineLength | django_mc/models.py:96-102 | combining keeps every entry of both lists, with no de-duplication |
| Regions.BuildCache | django_mc/models.py:36-40 | the three tables have exactly the rows' keys; each entry is a row that carries that key; `pk_to_slug` agrees with `by_pk` |
| Regions.BuildCacheConsistent | django_mc/models.py:36-40 | with unique keys and slugs, the tables agree with each other and no two keys share a slug |
| Regions.SlugLeadsBack | django_mc/models.py:38-40 | with unique keys, the slug a key maps to finds that key's region |
| Regions.SlugHasPk | django_mc/models.py:38-39 | every region found by slug is also found by its key |
| Regions.SameRowWhenSameKey | django_mc/models.py:60 | with unique keys, two rows sharing a slug or a key are one row |
| Regions.RegionManager.constructor | django_mc/models.py:11 | a new manager holds no cache |
| Regions.RegionManager.FillCache | django_mc/models.py:36-40 | the cache is rebuilt from the current rows, and is consistent when the keys are unique |
| Regions.RegionManager.ClearCache | django_mc/models.py:42-48 | the cache is gone, whether or not it was there |
| Regions.RegionManager.EnsureFilled | django_mc/models.py:15-34 | an existing cache is kept as it is (even if out of date); a missing one is filled from the current rows |
| Regions.RegionManager.RegionsBySlug | django_mc/models.py:15-20 | the slug table of the cache, filling it first when it is missing |
| Regions.RegionManager.RegionsByPk | django_mc/models.py:22-27 | the key table of the cache, filling it first when it is missing |
| Regions.RegionManager.RegionPkToSlug | django_mc/models.py:29-34 | the key-to-slug table of the cache, filling it first when it is missing |
| Layouts.Ancestry | django_mc/models.py:256 | the parent chain starts at the layout, links each layout to its parent and ends at a root |
| Layouts.LayoutHints | django_mc/models.py:274-279 | the layout's own `layout-<slug>` hint comes first; `LayoutHintsFollowChain` states the rest |
| Layouts.LayoutHintsFollowChain | django_mc/models.py:274-279 | a layout's hints are `layout-<slug>` for each layout of its chain, most specific first |
| Layouts.ComponentProvidersAsWritten | django_mc/models.py:281-285 | the code as written: the layout itself is the last provider, and a parent is followed only when its key is not 0 |
| Layouts.ZeroKeyParentDropped | django_mc/models.py:274-285 | a parent whose key is 0 is dropped from the providers but still named by the hints |
| Layouts.AsWrittenAgrees | django_mc/models.py:281-285 | when no ancestor has key 0, the code as written gives the same providers as the walk over every parent |
| Layouts.ComponentProviders | django_mc/models.py:281-285 | the walk as intended, over every parent: the layout itself is the last provider |
| Layouts.ProvidersReverseChain | django_mc/models.py:281-285 | the intended providers are the parent chain reversed, so a root comes first |
| Layouts.OfRegion | django_mc/models.py:141-145 | the rows of one region, in query order, never more than there are rows; the reference `GroupedIsFilter` relates the grouping to |
| Layouts.Grouped | django_mc/models.py:141-145 | the `setdefault(...).append(...)` grouping as a function of the rows seen; `GroupedIsFilter` states its keys and lists |
| Layouts.GroupedIsFilter | django_mc/models.py:131-145 | the regions with rows are the keys; each lists exactly its own rows, in query order; no list is empty |
| Layouts.RowListedUnderItsRegion | django_mc/models.py:143-144 | no row is lost: each is listed under its own region |
| Layouts.GroupByRegion | django_mc/models.py:141-145 | the grouping loop computes the grouping, so each key lists exactly its rows in order |
| TemplateHints.Hints | django_mc/models.py:274-279 | `get_template_hints` of each provider the core knows: a layout's chain hints, a region's one hint, a composite's members' hints; `CompositeFlattens` states the composite case |
| TemplateHints.FlatHints | django_mc/templatetags/django_mc_include_tags.py:34-38 | `flatten` of the providers' hints, one provider after another; `FlatHintsAppend` states it distributes over concatenation |
| TemplateHints.FlatHintsAppend | django_mc/templatetags/django_mc_include_tags.py:34-38 | the hints of concatenated provider lists are the concatenated hints |
| TemplateHints.CompositeFlattens | django_mc/templatetags/django_mc_component_tags.py:56-64 | a composite of one provider gives its hints; nested composites give all members' hints in order |
| Views.ProviderMaps | django_mc/views.py:116-117 | one region map per provider, each being that provider's `get_components_by_region()` |
| Views.Current | django_mc/views.py:119 | `components_by_region.get(region_id, [])`; a stored `None` arises only from an invalid rule, which gives `None` again whatever it is given, so it is read as `[]` |
| Views.MergeInto | django_mc/views.py:117-121 | each region of the provider gets the extend rule applied to what is there so far and to the new list; other regions are unchanged |
| Views.Step | django_mc/views.py:117-121 | one provider folded in, failing with the unknown-region error when the provider names a region `regions_by_id` lacks; `MergeProvider` is proved equal to it |
| Views.AllKeys | django_mc/views.py:116-117 | the region ids some provider mentions; `ContributionsMention` and `Fold` state it |
| Views.Fold | django_mc/views.py:115-121 | the merge succeeds exactly when every region any provider mentions is known; failure is the unknown-region error; the regions of the result are exactly those mentioned |
| Views.MergeProvider | django_mc/views.py:117-121 | the inner loop, whatever order the provider's dictionary iterates in, computes one fold step, failing on an unknown region |
| Views.MergeProviders | django_mc/views.py:115-121 | the outer loop over the providers computes the fold, stopping at the first unknown region |
| Views.UnknownRegionSticks | django_mc/views.py:118 | once a provider names an unknown region, the whole merge fails |
| Views.ContributionsMention | django_mc/views.py:116-117 | a region is mentioned exactly when some provider lists it |
| Views.FoldLast | django_mc/views.py:116-121 | what the merge holds once the last provider is folded in |
| Views.FoldCombines | django_mc/views.py:115-121 | under `combine`, a region holds every provider's list in provider order, with nothing dropped or repeated |
| Views.FoldOverwrites | django_mc/views.py:115-121 | under `overwrite`, a region holds the last non-empty list any provider gave it |
| Views.FoldInvalidRule | django_mc/views.py:118-121 | under any other rule a mentioned region holds `None` |
| Views.FoldSnoc | django_mc/views.py:116 | one more provider is one more step on the merge so far |
| Views.LastNonEmpty | django_mc/models.py:91-95 | the list `overwrite` ends up with is empty or one of the given lists |
| Views.SortByPositionCorrect | django_mc/views.py:92-97 | ordering gives the same entries (a permutation), sorted by position, with equal positions kept in merge order (stable) |
| Views.Insert | django_mc/views.py:97 | one entry placed before the first entry of no smaller position; `InsertPermutes`, `InsertSorted` and `InsertStable` state it |
| Views.SortByPosition | django_mc/views.py:92-97 | the stable sort by position, by insertion; `SortByPositionCorrect` states it is sorted, a permutation and stable |
| Views.InsertPermutes | django_mc/views.py:97 | inserting adds exactly the one entry |
| Views.InsertSorted | django_mc/views.py:97 | inserting into a sorted list keeps it sorted |
| Views.InsertStable | django_mc/views.py:97 | inserting puts the entry before the existing ones of its position |
| Views.NewRegionComponentList | django_mc/views.py:16-22 | `None` entries are dropped and the rest keep their order |
| Views.ResolveAll | django_mc/views.py:126-128 | each entry resolved, position by position |
| Views.Finish | django_mc/views.py:123-132 | the result fails exactly when some region holds `None`; otherwise each merged region appears under its slug with its ordered, resolved components, and each slug comes from a merged region |
| Views.ComponentsForRegions | django_mc/views.py:99-132 | an unknown region fails the whole call; otherwise the merge is finished |
| Views.GetComponentsForRegions | django_mc/views.py:112-132 | reads the tables through the manager (filling the cache only if it is absent) and gives the specified result |
| Views.LayoutProviders | django_mc/views.py:84-90 | the view's providers are the layout's, root first, over every parent (the corrected walk of the models.py:281-285 finding) |
| Views.DefaultHintProviders | django_mc/views.py:139-144 | the default hint providers are the layout |
| Views.TemplateHintProviders | django_mc/views.py:153-156 | the object comes before the hint providers |
| Views.DefaultTemplateHints | django_mc/views.py:146-156 | with the defaults, the object's hints come first, then one hint per layout of the chain |
| ViewScenarios.CombineTwo | django_mc/views.py:115-121 | two providers of one entry each for a `combine` region merge to both entries, in provider order |
| ViewScenarios.SortAfterMerge | django_mc/views.py:115-128 | sorting happens after all providers are merged: a page component at position 1 comes before a layout component at position 5 |
| PageViews.AppendUnder | django_mc/generic/pageview.py:28 | `setdefault(...).append(...)` adds the entry at the end of its region's list and changes nothing else |
| PageViews.PageView.constructor | django_mc/generic/pageview.py:8-21 | a new view has no extras |
| PageViews.PageView.AddExtraComponent | django_mc/generic/pageview.py:23-28 | the extras map is created first; a region object or a known slug appends the component under that region's key; an unknown slug fails and leaves the component out |
| PageViews.PageView.ComponentsByRegion | django_mc/generic/pageview.py:30-34 | the extras, or `{}` before the first addition |
| PageViews.PageView.ComponentProviders | django_mc/generic/pageview.py:36-40 | the layout chain (the corrected walk), then the page object, then the view itself |
| PageViews.ProviderMapsPrefix | django_mc/generic/pageview.py:36-40 | the maps of a prefix of the providers are a prefix of the maps |
| PageViews.ExtrasFoldedLast | django_mc/generic/pageview.py:36-40 | the view's extras are merged last: `combine` appends them and `overwrite` replaces what the layouts and the page placed |
| IncludeTags.TakeWhileNotUsing | django_mc/templatetags/django_mc_include_tags.py:62-64 | the tokens before the first `using` |
| IncludeTags.DropWhileNotUsing | django_mc/templatetags/django_mc_include_tags.py:65-67 | the tokens from the first `using` on |
| IncludeTags.RemoveUsing | django_mc/templatetags/django_mc_include_tags.py:59-67 | every `using` removed, nothing else; a single token is dropped exactly when it is `using` |
| IncludeTags.RemoveUsingAppend | django_mc/templatetags/django_mc_include_tags.py:59-67 | filtering two parts one after the other is filtering the whole, so the kept tokens keep their order and number |
| IncludeTags.ParseHintedInclude | django_mc/templatetags/django_mc_include_tags.py:51-69 | the tag name dropped, then `takewhile`/`dropwhile` with `using` filtered out; `ParseSplitsAtFirstUsing` and `ParseWithoutUsing` state the result |
| IncludeTags.ParseSplitsAtFirstUsing | django_mc/templatetags/django_mc_include_tags.py:51-69 | the names are the tokens before the first `using`; the providers are those after it, with any further `using` removed |
| IncludeTags.ParseWithoutUsing | django_mc/templatetags/django_mc_include_tags.py:51-69 | without `using`, every token after the tag name is a name and there are no providers |
| IncludeTags.Fill | django_mc/templatetags/django_mc_include_tags.py:45 | `template_name.format(hint=hint)` for the `{hint}` field; `FillWithoutField` states that a name without one is unchanged |
| IncludeTags.FillWithoutField | django_mc/templatetags/django_mc_include_tags.py:45 | a name without a `{hint}` field is used unchanged |
| IncludeTags.FillAll | django_mc/templatetags/django_mc_include_tags.py:45 | one filled name per hint, in hint order |
| IncludeTags.Candidates | django_mc/templatetags/django_mc_include_tags.py:44-46 | `flatten` over the names of each name filled with every hint; `CandidatesLength` and `CandidateAt` state its length and entries |
| IncludeTags.CandidatesLength | django_mc/templatetags/django_mc_include_tags.py:44-46 | one candidate per name and hint |
| IncludeTags.CandidateAt | django_mc/templatetags/django_mc_include_tags.py:44-46 | the candidates are name-major: entry `i*H+j` is name `i` filled with hint `j` |
| IncludeTags.RenderCandidates | django_mc/templatetags/django_mc_include_tags.py:29-46 | the candidates use all providers' hints together; with no providers there is no candidate |
| IncludeTags.RenderCandidateAt | django_mc/templatetags/django_mc_include_tags.py:29-46 | candidate `i*H+j` is name `i` filled with hint `j` of all providers' `H` hints |
| ComponentTags.ParseRenderComponent | django_mc/templatetags/django_mc_component_tags.py:73-87 | no component is the error of the second pop; a second argument other than `for` is rejected; otherwise the component and every later token as a provider |
| ComponentTags.TruthyProviders | django_mc/templatetags/django_mc_component_tags.py:48-54 | exactly the truthy providers are kept; when all are truthy, all are kept in order |
| ComponentTags.TruthyProvidersAppend | django_mc/templatetags/django_mc_component_tags.py:48-54 | keeping from two parts is keeping from the whole, a `None` is dropped and a provider kept, so the kept providers are in order and each as often as given |
| ComponentTags.TemplateNames | django_mc/templatetags/django_mc_component_tags.py:57-59 | a fake component names its one template; a concrete one asks its own template names with the kept providers |
| ComponentTags.ComponentData | django_mc/templatetags/django_mc_component_tags.py:66 | a fake component contributes nothing; a concrete one its own data |
| ComponentTags.ComponentFrame | django_mc/templatetags/django_mc_component_tags.py:61-66 | the pushed dictionary holds the suggested data, `PARENT_HINT_PROVIDER` as the composite of the providers, and the component's data, later ones winning |
| ComponentTags.TemplateContext.constructor | django_mc/templatetags/django_mc_component_tags.py:46 | a context starts with one dictionary |
| ComponentTags.TemplateContext.Push | django_mc/templatetags/django_mc_component_tags.py:67 | one dictionary is pushed |
| ComponentTags.TemplateContext.Pop | django_mc/templatetags/django_mc_component_tags.py:71 | the last dictionary is popped |
| ComponentTags.Render | django_mc/templatetags/django_mc_component_tags.py:46-71 | the template is rendered with the frame pushed on the caller's context, and the context is left exactly as it was, whatever the render gives |

## Left out

- django_mc/link/text_filters.py, resolvers.py, autodiscover.py and apps.py are not part of this model. Resolvers are plug-in values (`LinkRegistry.Resolver`). The base `LinkResolver.resolve` returns a `RuntimeError` object instead of raising it, and `handles` always gives false. A `Resolver` whose `resolveId` yields a value and whose `handles` is constantly false represents it, with that value's text standing in for the object.
- `LinkField.clean`, `LinkReferenceValidator` and the field's `max_length`/help text: form validation is not modelled. The validator is a Django `RegexValidator`, which uses `search`, not `match`. The path alternative then matches at any `/`, so every value containing a `/` passes, among them references that `Classify` rejects (`Page/1`, `page/`), for which `Link(...)` raises `ValueError`.
- `Link.__repr__` and `__unicode__`: string formatting only.
- The ORM: queries are their result rows; `visible()` is the identity on the rows given; `_create_region_component_model` and the signal wiring are not modelled.
- Python dictionaries: the registry iterates in insertion order (`order`); CPython 2 iterates in hash order. The merge is proved independent of the inner dictionary's order; the result of `reverse` is not, when several resolvers handle one object.
- Views.LayoutProviders, PageViews.PageView.ComponentProviders: both are built on the corrected walk `Layouts.ComponentProviders` of the models.py:281-285 finding, so a parent whose key is 0, which views.py:90 drops by calling `get_component_providers`, is a provider here. The code as written is `Layouts.ComponentProvidersAsWritten`, and `Layouts.AsWrittenAgrees` shows that both walks give the same providers when no ancestor has key 0.
- RegionManager: one thread only. The source keeps the cache in three attributes that `fill_cache` sets and `clear_cache` deletes one at a time, on a manager every request thread shares; the model holds the three tables as one value, so a state with some of them set and others not cannot arise.
- A cyclic parent chain: a `Layout` holds its parent as a value, so the unbounded recursion the source has on such a chain cannot be represented.
- Components.TemplateBasename: `lower()` is modelled on ASCII letters only, because Dafny has no Unicode case mapping.
- `RegionComponentList(region)` with `data=None` and its `suggest_template_names`: not used by the core paths modelled; the hints of such a list are not modelled.
- The falsiness of hint providers in `render_component` (an empty `RegionComponentList` is falsy) is an input: a falsy value is given as `None`.
- `str.format` is modelled only for the `{hint}` field; other fields, escapes and format errors are not.
- django_mc/utils/functional.py is not part of this model; its `flatten`, used by `hinted_include`, is assumed to concatenate one level of lists in order (`FlatHints`, `Seqs.Flatten`).
- `CompositeTemplateHintProvider`, `TemplateHintProvider` and `Renderable` come from django_mc/mixins.py, which is not part of this model; a composite's hints are assumed to be its members' hints in order, and the concrete components' template names and context data are parameters.
- HTTP handling: `dispatch`, `get`, `get_layout` (the chosen layout is the `layout` field), `get_context_data` and the `super().get_template_names()` tail of views.py:157-158.
- `select_template`, `render_to_string` and `Variable.resolve`: the template engine is a parameter, and the tags take their resolved values as inputs.
- Migrations, admin, settings and app start-up.

## Findings

| source | as written | input that shows it | evidently intended | confidence | as-written member | corrected member |
|---|---|---|---|---|---|---|
| django_mc/models.py:281-285 | `get_component_providers` follows the parent only when `self.parent_id` is truthy, while `get_template_hints` (models.py:274-279) follows any `self.parent` | a layout whose parent has key 0: its providers are the layout alone, its hints name both layouts | follow the parent whenever there is one, as the hints do | low; not executed (key 0 needs an explicitly chosen primary key) | Layouts.ZeroKeyParentDropped | Layouts.ProvidersReverseChain |
