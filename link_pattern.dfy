/** The link-reference grammar of django_mc/link/pattern.py.

    `LINK_REFERENCE_REGEX` is matched with Python 2's `re.match`, so every
    alternative is anchored at the start; only the object alternative carries
    the trailing `$`. The character classes follow Python 2's non-Unicode
    regular expressions: `\w` is `[A-Za-z0-9_]`, `.` is any character except
    `'\n'`, and `$` matches at the end or just before a final `'\n'`. */
module LinkPattern {
  import opened Wrappers

  /** Which group of `LINK_REFERENCE_REGEX` matched, with its captured text. */
  datatype Reference =
    | Url(url: string)
    | Path(path: string)
    | Obj(objectType: string, objectId: string)
    | NoMatch

  /** The three character classes the pattern uses. */
  datatype CharClass = WordChars | TypeChars | LineChars

  predicate InClass(k: CharClass, c: char)
  {
    match k
    case WordChars => IsWordChar(c)
    case TypeChars => IsTypeChar(c)
    case LineChars => NotNewline(c)
  }

  /** `\w` without the UNICODE flag. */
  predicate IsWordChar(c: char)
  {
    'a' <= c <= 'z' || 'A' <= c <= 'Z' || '0' <= c <= '9' || c == '_'
  }

  /** `[-a-z]`, the class of an object type. */
  predicate IsTypeChar(c: char)
  {
    'a' <= c <= 'z' || c == '-'
  }

  /** `.` without the DOTALL flag. */
  predicate NotNewline(c: char)
  {
    c != '\n'
  }

  predicate NoNewline(s: string)
  {
    forall i :: 0 <= i < |s| ==> s[i] != '\n'
  }

  predicate IsTypeName(t: string)
  {
    t != [] && forall i :: 0 <= i < |t| ==> IsTypeChar(t[i])
  }

  /** Length of the longest prefix of `s` whose characters all satisfy `p`:
      what a greedy `p+` or `p*` consumes. */
  function Span(s: string, p: CharClass): (n: nat)
    ensures n <= |s|
    ensures forall i :: 0 <= i < n ==> InClass(p, s[i])
    ensures n < |s| ==> !InClass(p, s[n])
  {
    if s == [] || !InClass(p, s[0]) then 0
    else
      var k := Span(s[1..], p);
      assert forall i :: 1 <= i < 1 + k ==> s[i] == s[1..][i - 1];
      1 + k
  }

  /** A `p+` run that is followed by a character outside the class is the
      whole greedy span. */
  lemma {:induction false} SpanOfRun(a: string, rest: string, p: CharClass)
    requires forall i :: 0 <= i < |a| ==> InClass(p, a[i])
    requires rest != [] && !InClass(p, rest[0])
    ensures Span(a + rest, p) == |a|
  {
    if a != [] {
      assert (a + rest)[1..] == a[1..] + rest;
      SpanOfRun(a[1..], rest, p);
    }
  }

  lemma {:induction false} SpanAll(a: string, p: CharClass)
    requires forall i :: 0 <= i < |a| ==> InClass(p, a[i])
    ensures Span(a, p) == |a|
  {
    if a != [] {
      SpanAll(a[1..], p);
    }
  }

  /** The text up to (not including) the first newline: what `.*` consumes. */
  function FirstLine(s: string): (r: string)
    ensures r <= s && NoNewline(r)
    ensures |r| < |s| ==> s[|r|] == '\n'
  {
    s[..Span(s, LineChars)]
  }

  /** Where `.+$` ends when it starts at `start`, if it matches there. */
  function TailEnd(s: string, start: nat): Option<nat>
    requires start <= |s|
  {
    var e := start + Span(s[start..], LineChars);
    if start < e && (e == |s| || e + 1 == |s|) then Some(e) else None
  }

  /** The URL alternative `\w+://.+` matches at the start of `s`. */
  predicate UrlMatches(s: string)
  {
    var w := Span(s, WordChars);
    0 < w && w + 3 < |s| && s[w..w + 3] == "://" && s[w + 3] != '\n'
  }

  /** The path alternative `/.*` matches at the start of `s`. */
  predicate PathMatches(s: string)
  {
    0 < |s| && s[0] == '/'
  }

  /** The object alternative `([-a-z]+)/(.+)$`: since `/` is outside the type
      class, the type is the whole leading `[-a-z]` run. */
  function ObjectGroups(s: string): Option<(string, string)>
  {
    var t := Span(s, TypeChars);
    if 0 < t then MatchWithType(s, s[..t]) else None
  }

  /** `LINK_REFERENCE_REGEX.match(s)`, reduced to the group that is set;
      the alternatives are tried in order. */
  function Classify(s: string): Reference
  {
    if UrlMatches(s) then Url(FirstLine(s))
    else if PathMatches(s) then Path(FirstLine(s))
    else
      match ObjectGroups(s)
      case Some((t, id)) => Obj(t, id)
      case None => NoMatch
  }

  // ---------------------------------------------------------------------
  // Completeness: each of the three forms is recognised.

  /** One or more word characters, `://`, then at least one character: a URL
      (tried first). The group runs to the end of the first line. */
  lemma UrlRecognised(scheme: string, rest: string)
    requires scheme != [] && forall i :: 0 <= i < |scheme| ==> IsWordChar(scheme[i])
    requires rest != [] && rest[0] != '\n'
    ensures Classify(scheme + "://" + rest) == Url(FirstLine(scheme + "://" + rest))
    ensures NoNewline(rest) ==> Classify(scheme + "://" + rest) == Url(scheme + "://" + rest)
  {
    UrlShape(scheme, rest);
    if NoNewline(rest) {
      SchemeLineHasNoNewline(scheme, rest);
      FirstLineOfLine(scheme + "://" + rest);
    }
  }

  lemma UrlShape(scheme: string, rest: string)
    requires scheme != [] && forall i :: 0 <= i < |scheme| ==> IsWordChar(scheme[i])
    requires rest != [] && rest[0] != '\n'
    ensures UrlMatches(scheme + "://" + rest)
  {
    var s := scheme + "://" + rest;
    SpanOfRun(scheme, "://" + rest, WordChars);
    assert s == scheme + ("://" + rest);
    assert s[|scheme|..|scheme| + 3] == "://";
    assert s[|scheme| + 3] == rest[0];
  }

  lemma SchemeLineHasNoNewline(scheme: string, rest: string)
    requires forall i :: 0 <= i < |scheme| ==> IsWordChar(scheme[i])
    requires NoNewline(rest)
    ensures NoNewline(scheme + "://" + rest)
  {
    var s := scheme + "://" + rest;
    forall i | 0 <= i < |s| ensures s[i] != '\n' {
      if i < |scheme| {
        assert s[i] == scheme[i];
      } else if i >= |scheme| + 3 {
        assert s[i] == rest[i - |scheme| - 3];
      }
    }
  }

  /** A string without a newline is its own first line. */
  lemma FirstLineOfLine(s: string)
    requires NoNewline(s)
    ensures FirstLine(s) == s
  {
    SpanAll(s, LineChars);
  }

  /** Anything that starts with `/`, `"/"` included, is a path: a URL cannot
      start with `/`. */
  lemma PathRecognised(s: string)
    requires s != [] && s[0] == '/'
    ensures Classify(s) == Path(FirstLine(s))
    ensures NoNewline(s) ==> Classify(s) == Path(s)
  {
    assert Span(s, WordChars) == 0;
    if NoNewline(s) {
      SpanAll(s, LineChars);
    }
  }

  /** `type/id` with a `[-a-z]+` type and a non-empty single-line id is an
      object reference, also with the one trailing newline `$` admits. */
  lemma ObjRecognised(t: string, id: string)
    requires IsTypeName(t)
    requires id != [] && NoNewline(id)
    ensures Classify(t + "/" + id) == Obj(t, id)
    ensures Classify(t + "/" + id + "\n") == Obj(t, id)
  {
    ObjRecognisedWith(t, id, "");
    ObjRecognisedWith(t, id, "\n");
    assert t + "/" + id + "" == t + "/" + id;
  }

  lemma ObjRecognisedWith(t: string, id: string, nl: string)
    requires IsTypeName(t)
    requires id != [] && NoNewline(id)
    requires nl == "" || nl == "\n"
    ensures Classify(t + "/" + id + nl) == Obj(t, id)
  {
    var s := t + "/" + id + nl;
    NotUrl(t, "/" + id + nl);
    assert s == t + ("/" + id + nl);
    assert !PathMatches(s) by { assert s[0] == t[0]; }
    SpanOfRun(t, "/" + id + nl, TypeChars);
    assert s[..|t|] == t;
    MatchWithTypeComplete(t, id, nl);
  }

  /** A string that starts with a type name followed by `/` is not a URL:
      its leading word run stops at a `-` or at the `/`, never at `:`. */
  lemma NotUrl(t: string, rest: string)
    requires IsTypeName(t)
    requires rest != [] && rest[0] == '/'
    ensures !UrlMatches(t + rest)
  {
    var s := t + rest;
    var w := Span(s, WordChars);
    assert s[|t|] == '/';
    assert w <= |t|;
    assert s[w] == '-' || s[w] == '/';
    if w + 3 < |s| { assert s[w..w + 3][0] == s[w]; }
  }

  // ---------------------------------------------------------------------
  // Soundness: a classification is only ever reported for its own form,
  // so exactly one group is set and the groups can be read back.

  lemma UrlSound(s: string)
    requires Classify(s).Url?
    ensures Classify(s).url == FirstLine(s)
    ensures UrlMatches(Classify(s).url)
  {
    var w := Span(s, WordChars);
    var u := FirstLine(s);
    assert forall i :: 0 <= i <= w + 3 ==> InClass(LineChars, s[i]) by {
      forall i | 0 <= i <= w + 3 ensures InClass(LineChars, s[i]) {
        if w <= i < w + 3 { assert s[i] == s[w..w + 3][i - w]; }
      }
    }
    assert |u| > w + 3;
    assert u[..w] == s[..w];
    assert u == s[..w] + u[w..];
    assert u[w] == s[w];
    SpanOfRun(s[..w], u[w..], WordChars);
    assert u[w..w + 3] == s[w..w + 3];
  }

  lemma PathSound(s: string)
    requires Classify(s).Path?
    ensures Classify(s).path == FirstLine(s) && s[0] == '/'
  {
  }

  lemma ObjSound(s: string)
    requires Classify(s).Obj?
    ensures var t, id := Classify(s).objectType, Classify(s).objectId;
      && IsTypeName(t) && id != [] && NoNewline(id)
      && (s == t + "/" + id || s == t + "/" + id + "\n")
  {
    var n := Span(s, TypeChars);
    MatchWithTypeSound(s, s[..n]);
    assert forall i :: 0 <= i < n ==> s[..n][i] == s[i];
  }

  /** Strings that match none of the three alternatives. */
  lemma NoMatchExamples()
    ensures Classify("") == NoMatch
    ensures Classify("Page/1") == NoMatch
    ensures Classify("page/") == NoMatch
    ensures Classify("a-b://x") == NoMatch
  {
    UppercaseTypeNoMatch();
    EmptyIdNoMatch();
    DashedSchemeNoMatch();
  }

  lemma UppercaseTypeNoMatch()
    ensures Classify("Page/1") == NoMatch
  {
    var s := "Page/1";
    assert s == "Page" + "/1";
    SpanOfRun("Page", "/1", WordChars);
    assert !UrlMatches(s);
    assert Span(s, TypeChars) == 0;
  }

  lemma EmptyIdNoMatch()
    ensures Classify("page/") == NoMatch
  {
  }

  lemma DashedSchemeNoMatch()
    ensures Classify("a-b://x") == NoMatch
  {
    DashedSchemeNotUrl();
    DashedSchemeNotObject();
  }

  lemma DashedSchemeNotUrl()
    ensures !UrlMatches("a-b://x")
  {
    var s := "a-b://x";
    assert s == "a" + "-b://x";
    SpanOfRun("a", "-b://x", WordChars);
    assert s[1..4][0] == '-';
  }

  lemma DashedSchemeNotObject()
    ensures ObjectGroups("a-b://x") == None
  {
    var s := "a-b://x";
    assert s == "a-b" + "://x";
    SpanOfRun("a-b", "://x", TypeChars);
    assert s[3] == ':';
  }

  // ---------------------------------------------------------------------
  // get_object_reference_regex: the object alternative with the type
  // restricted to the registered keys, matched literally and in key order.
  // The per-href rewrite anchors it as `^...$`; that is the match modelled.

  /** `(?P<object_type>t)/(?P<object_id>.+)$` with a literal type `t`. */
  function MatchWithType(s: string, t: string): Option<(string, string)>
  {
    if |t| < |s| && s[..|t|] == t && s[|t|] == '/' then
      match TailEnd(s, |t| + 1)
      case Some(e) => Some((t, s[|t| + 1..e]))
      case None => None
    else
      None
  }

  /** Alternation `k0|k1|...`: the first key for which the whole pattern matches. */
  function FirstAlternative(keys: seq<string>, s: string): Option<(string, string)>
  {
    if keys == [] then None
    else
      match MatchWithType(s, keys[0])
      case Some(m) => Some(m)
      case None => FirstAlternative(keys[1..], s)
  }

  /** `'|'.join([])` is the empty pattern, so an empty registry admits an
      empty type. */
  function MatchRegisteredReference(keys: seq<string>, s: string): Option<(string, string)>
  {
    if keys == [] then MatchWithType(s, "") else FirstAlternative(keys, s)
  }

  lemma MatchWithTypeSound(s: string, t: string)
    ensures MatchWithType(s, t).Some? ==>
      var (t', id) := MatchWithType(s, t).value;
      && t' == t && id != [] && NoNewline(id)
      && (s == t + "/" + id || s == t + "/" + id + "\n")
  {
    if |t| < |s| && s[..|t|] == t && s[|t|] == '/' && TailEnd(s, |t| + 1).Some? {
      var e := TailEnd(s, |t| + 1).value;
      var id := s[|t| + 1..e];
      assert forall i :: 0 <= i < |id| ==> id[i] == s[|t| + 1..][i];
      if e == |s| {
        assert s == t + "/" + id;
      } else {
        assert s[e] == '\n' by { assert s[|t| + 1..][e - |t| - 1] == s[e]; }
        assert s == t + "/" + id + "\n";
      }
    }
  }

  lemma MatchWithTypeComplete(t: string, id: string, nl: string)
    requires id != [] && NoNewline(id)
    requires nl == "" || nl == "\n"
    ensures MatchWithType(t + "/" + id + nl, t) == Some((t, id))
  {
    var s := t + "/" + id + nl;
    assert s[..|t|] == t;
    assert s[|t|] == '/';
    assert s[|t| + 1..] == id + nl;
    if nl == "" {
      assert id + nl == id;
      SpanAll(id, LineChars);
    } else {
      SpanOfRun(id, nl, LineChars);
    }
    assert s[|t| + 1..|t| + 1 + |id|] == id;
  }

  lemma {:induction false} FirstAlternativeSound(keys: seq<string>, s: string)
    ensures FirstAlternative(keys, s).Some? ==>
      var (t, id) := FirstAlternative(keys, s).value;
      && t in keys && id != [] && NoNewline(id)
      && (s == t + "/" + id || s == t + "/" + id + "\n")
  {
    if keys != [] {
      MatchWithTypeSound(s, keys[0]);
      FirstAlternativeSound(keys[1..], s);
    }
  }

  /** The matched type is always a registered key (or empty, with no keys). */
  lemma MatchRegisteredSound(keys: seq<string>, s: string)
    ensures MatchRegisteredReference(keys, s).Some? ==>
      var (t, id) := MatchRegisteredReference(keys, s).value;
      && (t in keys || (keys == [] && t == ""))
      && id != [] && NoNewline(id)
      && (s == t + "/" + id || s == t + "/" + id + "\n")
  {
    MatchWithTypeSound(s, "");
    FirstAlternativeSound(keys, s);
  }

  /** Every registered key is accepted, whatever the keys: the alternation
      tries the keys in order and the key itself matches, so some key does
      (by `MatchRegisteredSound` its match rebuilds the input). */
  lemma {:induction false} MatchRegisteredAccepts(keys: seq<string>, t: string, id: string)
    requires t in keys
    requires id != [] && NoNewline(id)
    ensures MatchRegisteredReference(keys, t + "/" + id).Some?
  {
    FirstAlternativeAccepts(keys, t, id);
  }

  lemma {:induction false} FirstAlternativeAccepts(keys: seq<string>, t: string, id: string)
    requires t in keys
    requires id != [] && NoNewline(id)
    ensures FirstAlternative(keys, t + "/" + id).Some?
  {
    if keys[0] == t {
      MatchWithTypeComplete(t, id, "");
      assert t + "/" + id + "" == t + "/" + id;
    } else {
      assert keys == [keys[0]] + keys[1..];
      FirstAlternativeAccepts(keys[1..], t, id);
    }
  }

  /** When no key contains `/`, the match gives back exactly the registered
      key and the id; a key containing `/` may instead take a longer type
      from an earlier key. */
  lemma {:induction false} MatchRegisteredComplete(keys: seq<string>, t: string, id: string)
    requires t in keys
    requires id != [] && NoNewline(id)
    requires forall k :: k in keys ==> '/' !in k
    ensures MatchRegisteredReference(keys, t + "/" + id) == Some((t, id))
  {
    FirstAlternativeComplete(keys, t, id);
  }

  lemma {:induction false} FirstAlternativeComplete(keys: seq<string>, t: string, id: string)
    requires t in keys
    requires id != [] && NoNewline(id)
    requires forall k :: k in keys ==> '/' !in k
    ensures FirstAlternative(keys, t + "/" + id) == Some((t, id))
  {
    var k := keys[0];
    if k == t {
      MatchWithTypeComplete(t, id, "");
      assert t + "/" + id + "" == t + "/" + id;
    } else {
      OtherKeyDoesNotMatch(k, t, id);
      assert keys == [k] + keys[1..];
      FirstAlternativeComplete(keys[1..], t, id);
    }
  }

  /** A different slash-free key cannot match `t/id` when `t` is slash-free. */
  lemma OtherKeyDoesNotMatch(k: string, t: string, id: string)
    requires '/' !in k && '/' !in t && k != t
    ensures MatchWithType(t + "/" + id, k) == None
  {
    var s := t + "/" + id;
    if |k| < |t| {
      assert s[|k|] == t[|k|];
    } else if |k| == |t| {
      assert s[..|k|] == t;
    } else if |k| < |s| {
      assert s[..|k|][|t|] == '/';
    }
  }
}
