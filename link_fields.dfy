/** The `Link` value and the `LinkField` conversions of
    django_mc/link/fields.py.

    A `Link` keeps the reference string it was built from and a lazily filled
    URL cache (`_url`). URL and path references fill the cache when they are
    built; object references fill it the first time the registry resolves
    them. The global registry the source imports is passed in explicitly. */
module LinkFields {
  import opened Wrappers
  import opened LinkPattern
  import opened LinkRegistry

  /** Why `Link.resolve()` gave no URL: the registry's `ResolveError`, or a
      URL or path link, which has no `object_type` attribute to resolve. */
  datatype LinkError = ResolveFailed | NotAnObjectReference

  /** The cache a fresh `Link` starts with. */
  function InitialUrl(r: Reference): (u: Option<string>)
    ensures r.Url? ==> u == Some(r.url)
    ensures r.Path? ==> u == Some(r.path)
    ensures r.Obj? || r.NoMatch? ==> u == None
  {
    match r
    case Url(url) => Some(url)
    case Path(path) => Some(path)
    case _ => None
  }

  /** A value held by a `LinkField`: nothing (`None` or the empty string
      stand for the falsy values), plain text, or a `Link`. */
  datatype FieldValue = NoValue | Text(text: string) | LinkValue(link: Link)

  class Link {
    const reference: string
    const parsed: Reference
    var cachedUrl: Option<string>

    /** The reference always matches the grammar, and URL and path links
        always hold their URL. */
    ghost predicate Valid()
      reads this
    {
      && parsed == Classify(reference)
      && parsed != NoMatch
      && (!parsed.Obj? ==> cachedUrl == InitialUrl(parsed))
    }

    /** The body of `Link(reference)` once the reference has matched;
        `NewLink` below is the call with its `ValueError` path. */
    constructor (reference: string)
      requires Classify(reference) != NoMatch
      ensures Valid()
      ensures this.reference == reference && cachedUrl == InitialUrl(parsed)
    {
      this.reference := reference;
      parsed := Classify(reference);
      cachedUrl := InitialUrl(Classify(reference));
    }

    /** `len(link)`: the length of the reference, never zero since the empty
        string matches no alternative, so a `Link` is never falsy. */
    function Len(): (n: nat)
      requires Classify(reference) != NoMatch
      ensures n == |reference| && n > 0
    {
      NoMatchExamples();
      |reference|
    }

    /** `link == other`: only another `Link`, and only by reference. The
        function reads nothing, so the cache cannot influence it. */
    function Equals(other: FieldValue): (b: bool)
      ensures b <==> other.LinkValue? && other.link.reference == reference
    {
      other.LinkValue? && other.link.reference == reference
    }

    /** `resolve()`: ask the registry, cache and return its answer;
        a `ResolveError` propagates and leaves the cache as it was. */
    method Resolve(reg: Registry) returns (r: Result<string, LinkError>)
      requires Valid()
      modifies this
      ensures Valid()
      ensures !parsed.Obj? ==> r == Err(NotAnObjectReference) && cachedUrl == old(cachedUrl)
      ensures parsed.Obj? ==>
        match reg.Resolve(parsed.objectType, parsed.objectId)
        case Ok(u) => r == Ok(u) && cachedUrl == Some(u)
        case Err(_) => r == Err(ResolveFailed) && cachedUrl == old(cachedUrl)
    {
      if !parsed.Obj? {
        return Err(NotAnObjectReference);
      }
      var res := reg.Resolve(parsed.objectType, parsed.objectId);
      match res
      case Ok(u) =>
        cachedUrl := Some(u);
        r := Ok(u);
      case Err(_) =>
        r := Err(ResolveFailed);
    }

    /** `exists()`: true with a cached URL; otherwise true exactly when
        resolving succeeds now. It never raises. */
    method Exists(reg: Registry) returns (b: bool)
      requires Valid()
      modifies this
      ensures Valid()
      ensures old(cachedUrl).Some? ==> b && cachedUrl == old(cachedUrl)
      ensures old(cachedUrl).None? ==>
        var res := reg.Resolve(parsed.objectType, parsed.objectId);
        && (b <==> res.Ok?)
        && cachedUrl == (if res.Ok? then Some(res.value) else None)
    {
      if cachedUrl.Some? {
        return true;
      }
      var r := Resolve(reg);
      b := r.Ok?;
    }

    /** The `url` property: the cached URL if there is one; otherwise resolve,
        caching on success and answering `''` without caching on
        `ResolveError`, so that a later read tries again. */
    method Url(reg: Registry) returns (u: string)
      requires Valid()
      modifies this
      ensures Valid()
      ensures old(cachedUrl).Some? ==> u == old(cachedUrl).value && cachedUrl == old(cachedUrl)
      ensures old(cachedUrl).None? ==>
        match reg.Resolve(parsed.objectType, parsed.objectId)
        case Ok(v) => u == v && cachedUrl == Some(v)
        case Err(_) => u == "" && cachedUrl == None
    {
      if cachedUrl.None? {
        var r := Resolve(reg);
        if r.Err? {
          return "";
        }
      }
      u := cachedUrl.value;
    }
  }

  /** `Link(reference)`, which raises `ValueError` (here `None`) when the
      reference matches no alternative. */
  method NewLink(reference: string) returns (r: Option<Link>)
    ensures r.None? <==> Classify(reference) == NoMatch
    ensures r.Some? ==>
      && fresh(r.value) && r.value.Valid()
      && r.value.reference == reference
      && r.value.cachedUrl == InitialUrl(Classify(reference))
  {
    if Classify(reference) == NoMatch {
      return None;
    }
    var link := new Link(reference);
    return Some(link);
  }

  /** `LinkField.to_python`: falsy values and `Link`s come back unchanged,
      a matching string becomes a new `Link`, and any other string is kept
      verbatim. */
  method ToPython(v: FieldValue) returns (r: FieldValue)
    ensures v.NoValue? || v.LinkValue? ==> r == v
    ensures v.Text? && Classify(v.text) == NoMatch ==> r == v
    ensures v.Text? && Classify(v.text) != NoMatch ==>
      && r.LinkValue? && fresh(r.link) && r.link.Valid()
      && r.link.reference == v.text
      && r.link.cachedUrl == InitialUrl(Classify(v.text))
  {
    match v
    case NoValue => r := v;
    case LinkValue(_) => r := v;
    case Text(s) =>
      if s == "" {
        // `not value`: the empty string goes back through CharField as is.
        r := v;
      } else {
        var link := NewLink(s);
        r := if link.Some? then LinkValue(link.value) else v;
      }
  }

  /** `LinkField.get_prep_value`: a `Link` is stored as its reference text;
      everything else is stored as it is. */
  function GetPrepValue(v: FieldValue): (r: FieldValue)
    ensures v.LinkValue? ==> r == Text(v.link.reference)
    ensures !v.LinkValue? ==> r == v
  {
    match v
    case LinkValue(link) => Text(link.reference)
    case _ => v
  }

  /** Storing a `Link` and loading it back gives a `Link` equal to it. */
  method PrepThenLoad(link: Link) returns (r: FieldValue)
    requires link.Valid()
    ensures r.LinkValue? && link.Equals(r) && r.link.Equals(LinkValue(link))
  {
    r := ToPython(GetPrepValue(LinkValue(link)));
  }
}
