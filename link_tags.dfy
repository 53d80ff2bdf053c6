/** The `resolve_link` template tag of
    django_mc/link/templatetags/django_mc_link_tags.py: the URL a reference
    stands for, computed afresh and never cached. */
module LinkTags {
  import opened Wrappers
  import opened LinkPattern
  import opened LinkRegistry
  import opened LinkFields

  /** `resolve_link(reference)`. */
  function ResolveLink(reg: Registry, reference: string): (r: string)
    reads reg
    ensures Classify(reference) == NoMatch ==> r == ""
    ensures Classify(reference).Url? ==> r == Classify(reference).url
    ensures Classify(reference).Path? ==> r == Classify(reference).path
    ensures Classify(reference).Obj? ==>
      var res := reg.Resolve(Classify(reference).objectType, Classify(reference).objectId);
      r == if res.Ok? then res.value else ""
  {
    match Classify(reference)
    case NoMatch => ""
    case Url(url) => url
    case Path(path) => path
    case Obj(t, id) =>
      match reg.Resolve(t, id)
      case Ok(url) => url
      case Err(_) => ""
  }

  /** For every valid reference and the same registry, the tag gives what the
      first read of `Link(reference).url` gives. */
  method FirstUrlReadAgrees(reg: Registry, reference: string) returns (u: Option<string>)
    ensures u.None? <==> Classify(reference) == NoMatch
    ensures u.Some? ==> u.value == ResolveLink(reg, reference)
  {
    var link := NewLink(reference);
    if link.None? {
      return None;
    }
    var url := link.value.Url(reg);
    return Some(url);
  }
}
