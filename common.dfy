/** Values shared by every part of the chat tester: optional values, the
    exceptions that the tester's catch blocks observe, and the outcome of an
    operation that may throw. */
module Common {

  /** C#'s null for reference values, made explicit. */
  datatype Option<+T> = None | Some(value: T)

  /** An exception as a catch block sees it: its Message and, when it has
      one, its InnerException. */
  datatype Exn = Exn(message: string, inner: Option<Exn>)

  /** How an awaited operation ended: normally, or by throwing `error`. */
  datatype Outcome = Ok | Fail(error: Exn)

  /** The message of the exception an outcome threw (empty when it did not throw). */
  function MessageOf(o: Outcome): string
  {
    if o.Fail? then o.error.message else ""
  }

  /** The position of the first element of `s` that satisfies `p`, as LINQ's
      FirstOrDefault finds it: everything before it fails `p`. */
  function FindFirst<T>(s: seq<T>, p: T -> bool): (r: Option<nat>)
    ensures r.Some? ==> r.value < |s| && p(s[r.value])
    ensures r.Some? ==> forall j :: 0 <= j < r.value ==> !p(s[j])
    ensures r.None? ==> forall j :: 0 <= j < |s| ==> !p(s[j])
  {
    if |s| == 0 then None
    else if p(s[0]) then Some(0)
    else
      match FindFirst(s[1..], p)
      case None => None
      case Some(k) => Some(k + 1)
  }

  /** Whether some element satisfies `p`, LINQ's Any. */
  predicate AnySatisfies<T>(s: seq<T>, p: T -> bool)
  {
    exists i :: 0 <= i < |s| && p(s[i])
  }

  lemma FindFirstFindsAny<T>(s: seq<T>, p: T -> bool)
    ensures FindFirst(s, p).Some? <==> AnySatisfies(s, p)
  {
    if AnySatisfies(s, p) {
      var i :| 0 <= i < |s| && p(s[i]);
      assert FindFirst(s, p).Some?;
    }
  }

  /** `f` applied to every element, in order (LINQ's Select). */
  function Map<A, B>(f: A -> B, s: seq<A>): (r: seq<B>)
    ensures |r| == |s| && forall i :: 0 <= i < |s| ==> r[i] == f(s[i])
  {
    seq(|s|, i requires 0 <= i < |s| => f(s[i]))
  }

  lemma MapAppend<A, B>(f: A -> B, s: seq<A>, u: seq<A>)
    ensures Map(f, s + u) == Map(f, s) + Map(f, u)
  {
    assert forall i :: 0 <= i < |s| ==> (s + u)[i] == s[i];
    assert forall i :: |s| <= i < |s| + |u| ==> (s + u)[i] == u[i - |s|];
  }

  /** The values present in a sequence of optional values, in order. */
  function FilterSome<T>(s: seq<Option<T>>): (r: seq<T>)
    ensures |r| <= |s|
  {
    if |s| == 0 then [] else FilterSome(s[..|s| - 1]) + (if s[|s| - 1].Some? then [s[|s| - 1].value] else [])
  }

  /** When every element is present, FilterSome keeps them all. */
  lemma {:induction false} FilterSomeAll<T>(s: seq<Option<T>>, xs: seq<T>)
    requires |s| == |xs| && forall i :: 0 <= i < |s| ==> s[i] == Some(xs[i])
    ensures FilterSome(s) == xs
    decreases |s|
  {
    if |s| > 0 {
      var n := |s| - 1;
      FilterSomeAll(s[..n], xs[..n]);
      FrontLast(xs);
    }
  }

  /** When no element is present, FilterSome keeps nothing. */
  lemma {:induction false} FilterSomeNone<T>(s: seq<Option<T>>)
    requires forall i :: 0 <= i < |s| ==> s[i].None?
    ensures FilterSome(s) == []
    decreases |s|
  {
    if |s| > 0 {
      FilterSomeNone(s[..|s| - 1]);
    }
  }

  /** FilterSome of a concatenation is the concatenation of the FilterSomes. */
  lemma {:induction false} FilterSomeAppend<T>(s: seq<Option<T>>, u: seq<Option<T>>)
    ensures FilterSome(s + u) == FilterSome(s) + FilterSome(u)
    decreases |u|
  {
    if |u| == 0 {
      assert s + u == s;
    } else {
      var n := |u| - 1;
      assert (s + u)[..|s + u| - 1] == s + u[..n];
      FilterSomeAppend(s, u[..n]);
      var last := if u[n].Some? then [u[n].value] else [];
      AppendAssoc(FilterSome(s), FilterSome(u[..n]), last);
    }
  }

  /** A non-empty sequence is its front followed by its last element. */
  lemma FrontLast<T>(s: seq<T>)
    requires |s| > 0
    ensures s[..|s| - 1] + [s[|s| - 1]] == s
  {
  }

  /** Appending is associative. */
  lemma AppendAssoc<T>(a: seq<T>, b: seq<T>, c: seq<T>)
    ensures (a + b) + c == a + (b + c)
  {
  }
}
