/** Sequence helpers that several source idioms share: `flatten`, dropping
    `None` entries from a list, and list reversal. */
module Seqs {
  import opened Wrappers

  /** Concatenation of a list of lists, in order (`flatten` / `sum(..., [])`). */
  function Flatten<T>(ss: seq<seq<T>>): seq<T>
  {
    if ss == [] then [] else ss[0] + Flatten(ss[1..])
  }

  lemma {:induction false} FlattenAppend<T>(a: seq<seq<T>>, b: seq<seq<T>>)
    ensures Flatten(a + b) == Flatten(a) + Flatten(b)
  {
    if a == [] {
      assert a + b == b;
    } else {
      assert (a + b)[1..] == a[1..] + b;
      FlattenAppend(a[1..], b);
    }
  }

  /** The entries of `s` that are not `None`, in their original order
      (`[x for x in s if x is not None]`). */
  function Somes<T>(s: seq<Option<T>>): seq<T>
  {
    if s == [] then []
    else if s[0].Some? then [s[0].value] + Somes(s[1..])
    else Somes(s[1..])
  }

  lemma {:induction false} SomesAppend<T>(a: seq<Option<T>>, b: seq<Option<T>>)
    ensures Somes(a + b) == Somes(a) + Somes(b)
  {
    if a == [] {
      assert a + b == b;
    } else {
      assert (a + b)[1..] == a[1..] + b;
      SomesAppend(a[1..], b);
    }
  }

  /** Dropping `None` keeps exactly the present values and never lengthens the list. */
  lemma {:induction false} SomesMembers<T>(s: seq<Option<T>>)
    ensures |Somes(s)| <= |s|
    ensures forall x :: x in Somes(s) <==> Some(x) in s
    ensures (forall i :: 0 <= i < |s| ==> s[i].Some?) ==> |Somes(s)| == |s|
  {
    if s != [] {
      SomesMembers(s[1..]);
      assert s == [s[0]] + s[1..];
      forall x ensures x in Somes(s) <==> Some(x) in s {
        assert Some(x) in s <==> Some(x) == s[0] || Some(x) in s[1..];
      }
      if forall i :: 0 <= i < |s| ==> s[i].Some? {
        assert forall i :: 0 <= i < |s[1..]| ==> s[1..][i] == s[i + 1];
      }
    }
  }

  /** With no `None` entry, nothing is dropped and nothing moves. */
  lemma {:induction false} SomesAllPresent<T>(s: seq<Option<T>>)
    ensures (forall i :: 0 <= i < |s| ==> s[i].Some?) ==>
      |Somes(s)| == |s| && forall i :: 0 <= i < |s| ==> Some(Somes(s)[i]) == s[i]
  {
    if s != [] {
      SomesAllPresent(s[1..]);
      if forall i :: 0 <= i < |s| ==> s[i].Some? {
        assert forall i :: 0 <= i < |s[1..]| ==> s[1..][i] == s[i + 1];
      }
    }
  }

  function Reverse<T>(s: seq<T>): seq<T>
  {
    if s == [] then [] else Reverse(s[1..]) + [s[0]]
  }

  lemma {:induction false} ReverseAt<T>(s: seq<T>)
    ensures |Reverse(s)| == |s|
    ensures forall k :: 0 <= k < |s| ==> Reverse(s)[k] == s[|s| - 1 - k]
  {
    if s != [] {
      ReverseAt(s[1..]);
    }
  }
}
