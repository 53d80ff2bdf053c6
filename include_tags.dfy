/** The `hinted_include` template tag of
    django_mc/templatetags/django_mc_include_tags.py: splitting the tag's
    tokens into template names and hint providers, and expanding the names
    with the providers' hints into the candidate list handed to
    `select_template`. */
module IncludeTags {
  import opened Seqs
  import opened TemplateHints

  const Using: string := "using"

  /** `takewhile(not_using, tokens)`. */
  function TakeWhileNotUsing(tokens: seq<string>): (r: seq<string>)
    ensures r <= tokens
    ensures Using !in r
    ensures |r| < |tokens| ==> tokens[|r|] == Using
  {
    if tokens == [] || tokens[0] == Using then [] else [tokens[0]] + TakeWhileNotUsing(tokens[1..])
  }

  /** `dropwhile(not_using, tokens)`. */
  function DropWhileNotUsing(tokens: seq<string>): (r: seq<string>)
    ensures r == tokens[|TakeWhileNotUsing(tokens)|..]
  {
    if tokens == [] || tokens[0] == Using then tokens else DropWhileNotUsing(tokens[1..])
  }

  /** `filter(not_using, tokens)`: every `using` removed, order kept. */
  function RemoveUsing(tokens: seq<string>): (r: seq<string>)
    ensures |r| <= |tokens|
    ensures forall t :: t in r <==> t in tokens && t != Using
    ensures |tokens| == 1 ==> r == (if tokens[0] == Using then [] else tokens)
  {
    if tokens == [] then []
    else if tokens[0] == Using then RemoveUsing(tokens[1..])
    else [tokens[0]] + RemoveUsing(tokens[1..])
  }

  /** Filtering one part after another is filtering the whole: with the
      one-token cases of `RemoveUsing`, this fixes the order and the number
      of the kept tokens. */
  lemma {:induction false} RemoveUsingAppend(a: seq<string>, b: seq<string>)
    ensures RemoveUsing(a + b) == RemoveUsing(a) + RemoveUsing(b)
  {
    if a == [] {
      assert a + b == b;
    } else {
      assert (a + b)[0] == a[0];
      assert (a + b)[1..] == a[1..] + b;
      RemoveUsingAppend(a[1..], b);
    }
  }

  /** A parsed tag: the template-name variables and the hint-provider
      variables, as the token text that names them. */
  datatype HintedInclude = HintedInclude(templateNames: seq<string>, hintProviders: seq<string>)

  /** `HintedIncludeNode.parse`. `tokens` is `token.split_contents()`, whose
      first element is always the tag name. */
  function ParseHintedInclude(tokens: seq<string>): (node: HintedInclude)
    requires |tokens| > 0
  {
    var bits := tokens[1..];
    HintedInclude(RemoveUsing(TakeWhileNotUsing(bits)), RemoveUsing(DropWhileNotUsing(bits)))
  }

  lemma {:induction false} RemoveUsingNone(tokens: seq<string>)
    requires Using !in tokens
    ensures RemoveUsing(tokens) == tokens
  {
    if tokens != [] {
      RemoveUsingNone(tokens[1..]);
    }
  }

  /** `takewhile` and `dropwhile` split at the first `using`. */
  lemma {:induction false} SplitAtFirstUsing(bits: seq<string>, m: nat)
    requires m < |bits| && bits[m] == Using
    requires Using !in bits[..m]
    ensures TakeWhileNotUsing(bits) == bits[..m]
    ensures DropWhileNotUsing(bits) == bits[m..]
  {
    if m > 0 {
      assert bits[0] in bits[..m];
      assert bits[1..][..m - 1] == bits[1..m];
      assert bits[..m] == [bits[0]] + bits[1..m];
      SplitAtFirstUsing(bits[1..], m - 1);
    }
  }

  /** Without a `using`, `takewhile` keeps everything and `dropwhile` nothing. */
  lemma {:induction false} SplitWithoutUsing(bits: seq<string>)
    requires Using !in bits
    ensures TakeWhileNotUsing(bits) == bits
    ensures DropWhileNotUsing(bits) == []
  {
    if bits != [] {
      assert bits[1..] <= bits[1..];
      assert forall t :: t in bits[1..] ==> t in bits;
      SplitWithoutUsing(bits[1..]);
    }
  }

  /** The names are the tokens before the first `using`; the providers are
      the tokens after it with every further `using` removed. */
  lemma ParseSplitsAtFirstUsing(tokens: seq<string>, k: nat)
    requires 1 <= k < |tokens| && tokens[k] == Using
    requires Using !in tokens[1..k]
    ensures ParseHintedInclude(tokens).templateNames == tokens[1..k]
    ensures ParseHintedInclude(tokens).hintProviders == RemoveUsing(tokens[k + 1..])
  {
    var bits := tokens[1..];
    assert bits[..k - 1] == tokens[1..k];
    SplitAtFirstUsing(bits, k - 1);
    RemoveUsingNone(tokens[1..k]);
    assert bits[k - 1..] == [Using] + tokens[k + 1..];
  }

  /** Without `using`, every token after the tag name is a template name and
      there are no hint providers. */
  lemma ParseWithoutUsing(tokens: seq<string>)
    requires |tokens| > 0 && Using !in tokens
    ensures ParseHintedInclude(tokens).templateNames == tokens[1..]
    ensures ParseHintedInclude(tokens).hintProviders == []
  {
    var bits := tokens[1..];
    assert forall t :: t in bits ==> t in tokens;
    SplitWithoutUsing(bits);
    RemoveUsingNone(bits);
  }

  /** `template_name.format(hint=hint)`: every `{hint}` field replaced. */
  function Fill(name: string, hint: string): string
  {
    if |name| < 6 then name
    else if name[..6] == "{hint}" then hint + Fill(name[6..], hint)
    else [name[0]] + Fill(name[1..], hint)
  }

  /** A `{hint}` field starts at index `i` of `name`. */
  predicate FieldAt(name: string, i: nat)
  {
    i + 6 <= |name| && name[i..i + 6] == "{hint}"
  }

  /** A field in the tail of `name` is a field of `name`, one index on. */
  lemma FieldInTail(name: string, i: nat)
    requires |name| > 0 && FieldAt(name[1..], i)
    ensures FieldAt(name, i + 1)
  {
    assert name[1..][i..i + 6] == name[i + 1..i + 7];
  }

  /** A name without a `{hint}` field is used as it is, once per hint. */
  lemma {:induction false} FillWithoutField(name: string, hint: string)
    requires forall i: nat :: !FieldAt(name, i)
    ensures Fill(name, hint) == name
  {
    if |name| >= 6 {
      assert !FieldAt(name, 0) && name[0..6] == name[..6];
      forall i: nat | FieldAt(name[1..], i) ensures false {
        FieldInTail(name, i);
      }
      FillWithoutField(name[1..], hint);
    }
  }

  /** `[template_name.format(hint=hint) for hint in hints]`. */
  function FillAll(name: string, hints: seq<string>): (r: seq<string>)
    ensures |r| == |hints|
    ensures forall j :: 0 <= j < |hints| ==> r[j] == Fill(name, hints[j])
  {
    if hints == [] then [] else [Fill(name, hints[0])] + FillAll(name, hints[1..])
  }

  /** The candidate template names of `render`: for each name in order, the
      name filled with each hint in order. */
  function Candidates(names: seq<string>, hints: seq<string>): seq<string>
  {
    if names == [] then [] else FillAll(names[0], hints) + Candidates(names[1..], hints)
  }

  lemma {:induction false} CandidatesLength(names: seq<string>, hints: seq<string>)
    ensures |Candidates(names, hints)| == |names| * |hints|
  {
    if names != [] {
      CandidatesLength(names[1..], hints);
      assert |names| * |hints| == (|names| - 1) * |hints| + |hints|;
    }
  }

  /** The candidates of a split name list are the candidates of each part. */
  lemma {:induction false} CandidatesSplit(names: seq<string>, hints: seq<string>, i: nat)
    requires i <= |names|
    ensures Candidates(names, hints) == Candidates(names[..i], hints) + Candidates(names[i..], hints)
  {
    if i > 0 {
      CandidatesSplit(names[1..], hints, i - 1);
      assert names[1..][..i - 1] == names[..i][1..];
      assert names[1..][i - 1..] == names[i..];
    } else {
      assert names[..0] == [];
    }
  }

  lemma IndexPastPrefix<T>(before: seq<T>, middle: seq<T>, after: seq<T>, j: nat)
    requires j < |middle|
    ensures |before| + j < |before + (middle + after)|
    ensures (before + (middle + after))[|before| + j] == middle[j]
  {
  }

  /** The candidates for name `i` follow those of the names before it. */
  lemma CandidateAfterPrefix(names: seq<string>, hints: seq<string>, i: nat, j: nat)
    requires i < |names| && j < |hints|
    ensures |Candidates(names[..i], hints)| + j < |Candidates(names, hints)|
    ensures Candidates(names, hints)[|Candidates(names[..i], hints)| + j] == FillAll(names[i], hints)[j]
  {
    CandidatesSplit(names, hints, i);
    var rest := names[i..];
    assert rest[0] == names[i];
    assert Candidates(rest, hints) == FillAll(rest[0], hints) + Candidates(rest[1..], hints);
    IndexPastPrefix(Candidates(names[..i], hints), FillAll(rest[0], hints), Candidates(rest[1..], hints), j);
  }

  /** The candidate list is name-major and has one entry per name and hint,
      so it is empty when there are no hints. */
  lemma CandidateAt(names: seq<string>, hints: seq<string>, i: nat, j: nat)
    requires i < |names| && j < |hints|
    ensures |Candidates(names, hints)| == |names| * |hints|
    ensures i * |hints| + j < |Candidates(names, hints)|
    ensures Candidates(names, hints)[i * |hints| + j] == Fill(names[i], hints[j])
  {
    CandidatesLength(names, hints);
    CandidatesLength(names[..i], hints);
    CandidateAfterPrefix(names, hints, i, j);
  }

  /** What `render` hands to `select_template`: the hints of all resolved
      providers, one provider after the other, then every name filled with
      every hint. */
  function RenderCandidates(names: seq<string>, providers: seq<HintProvider>): (r: seq<string>)
    ensures |r| == |names| * |FlatHints(providers)|
    ensures providers == [] ==> r == []
  {
    CandidatesLength(names, FlatHints(providers));
    Candidates(names, FlatHints(providers))
  }

  /** Entry `i * H + j` of what `render` hands on is name `i` filled with
      hint `j` of all providers' hints together, `H` being their number. */
  lemma RenderCandidateAt(names: seq<string>, providers: seq<HintProvider>, i: nat, j: nat)
    requires i < |names| && j < |FlatHints(providers)|
    ensures i * |FlatHints(providers)| + j < |RenderCandidates(names, providers)|
    ensures RenderCandidates(names, providers)[i * |FlatHints(providers)| + j] == Fill(names[i], FlatHints(providers)[j])
  {
    CandidateAt(names, FlatHints(providers), i, j);
  }
}
