/** The .NET string operations the tester relies on: whitespace tests,
    Trim, Split on one separator, concatenation and decimal formatting. */
module Strings {
  import opened Common

  /** char.IsWhiteSpace: the Unicode separators (Zs, Zl, Zp), the controls
      U+0009 to U+000D, U+0085 and U+00A0. */
  predicate IsWhiteSpace(c: char)
  {
    || c == ' '
    || ('\t' <= c <= '\r')
    || c == '\U{0085}'
    || c == '\U{00A0}'
    || c == '\U{1680}'
    || ('\U{2000}' <= c <= '\U{200A}')
    || c == '\U{2028}'
    || c == '\U{2029}'
    || c == '\U{202F}'
    || c == '\U{205F}'
    || c == '\U{3000}'
  }

  /** string.IsNullOrWhiteSpace (a null string is modelled as the empty one). */
  predicate IsNullOrWhiteSpace(s: string)
  {
    forall i :: 0 <= i < |s| ==> IsWhiteSpace(s[i])
  }

  /** string.IsNullOrEmpty on a string that may be null. */
  predicate IsNullOrEmpty(s: Option<string>)
  {
    s.None? || s.value == ""
  }

  /** How many white-space characters s starts with. */
  function LeadingWhiteSpace(s: string): (n: nat)
    ensures n <= |s| && IsNullOrWhiteSpace(s[..n])
    ensures n == |s| || !IsWhiteSpace(s[n])
  {
    if |s| == 0 || !IsWhiteSpace(s[0]) then 0
    else
      var n := LeadingWhiteSpace(s[1..]);
      assert s[..n + 1] == [s[0]] + s[1..][..n];
      n + 1
  }

  /** Where the white space that s ends with begins. */
  function TrailingWhiteSpace(s: string): (n: nat)
    ensures n <= |s| && IsNullOrWhiteSpace(s[n..])
    ensures n == 0 || !IsWhiteSpace(s[n - 1])
  {
    if |s| == 0 || !IsWhiteSpace(s[|s| - 1]) then |s|
    else
      var n := TrailingWhiteSpace(s[..|s| - 1]);
      assert s[n..] == s[..|s| - 1][n..] + [s[|s| - 1]];
      n
  }

  /** s with its leading white space removed. */
  function TrimStart(s: string): string
  {
    s[LeadingWhiteSpace(s)..]
  }

  /** s with its trailing white space removed. */
  function TrimEnd(s: string): string
  {
    s[..TrailingWhiteSpace(s)]
  }

  /** string.Trim(): s without its leading and trailing white space. */
  function Trim(s: string): (r: string)
    ensures |r| <= |s|
    ensures r == [] || (!IsWhiteSpace(r[0]) && !IsWhiteSpace(r[|r| - 1]))
  {
    var t := TrimStart(s);
    var r := TrimEnd(t);
    assert r != [] ==> r[0] == t[0];
    r
  }

  /** Trim keeps a slice of s, starting after its leading white space. */
  lemma TrimIsSlice(s: string)
    ensures var i, r := LeadingWhiteSpace(s), Trim(s);
              i + |r| <= |s| && r == s[i..i + |r|]
  {
    var i := LeadingWhiteSpace(s);
    var t := s[i..];
    assert Trim(s) == t[..TrailingWhiteSpace(t)];
  }

  /** What Trim drops on either side of its slice is white space. */
  lemma TrimDropsWhiteSpace(s: string)
    ensures var i, r := LeadingWhiteSpace(s), Trim(s);
              i + |r| <= |s| && IsNullOrWhiteSpace(s[..i]) && IsNullOrWhiteSpace(s[i + |r|..])
  {
    var i := LeadingWhiteSpace(s);
    var t := s[i..];
    var n := TrailingWhiteSpace(t);
    assert |Trim(s)| == n;
    assert s[i + n..] == t[n..];
  }

  /** A string that neither starts nor ends with white space is its own Trim. */
  lemma TrimUnchanged(s: string)
    requires s == [] || (!IsWhiteSpace(s[0]) && !IsWhiteSpace(s[|s| - 1]))
    ensures Trim(s) == s
  {
  }

  /** Trim leaves nothing exactly when the string is null or white space. */
  lemma TrimEmptyIffWhiteSpace(s: string)
    ensures Trim(s) == [] <==> IsNullOrWhiteSpace(s)
  {
    TrimIsSlice(s);
    TrimDropsWhiteSpace(s);
    var i := LeadingWhiteSpace(s);
    if Trim(s) != [] {
      assert s[i] == Trim(s)[0];
    } else {
      assert s[..i] == s;
    }
  }

  /** string.Split(sep): the pieces between occurrences of sep, empty pieces
      included, so there is always at least one. */
  function Split(s: string, sep: char): (r: seq<string>)
    ensures |r| >= 1
    ensures forall i :: 0 <= i < |r| ==> sep !in r[i]
  {
    if |s| == 0 then [""]
    else
      var rest := Split(s[1..], sep);
      if s[0] == sep then [""] + rest
      else [[s[0]] + rest[0]] + rest[1..]
  }

  /** string.Join(sep, parts). */
  function Join(parts: seq<string>, sep: char): string
  {
    if |parts| == 0 then ""
    else if |parts| == 1 then parts[0]
    else parts[0] + [sep] + Join(parts[1..], sep)
  }

  /** Joining the pieces of a Split gives the original string back. */
  lemma {:induction false} JoinSplit(s: string, sep: char)
    ensures Join(Split(s, sep), sep) == s
  {
    if |s| > 0 {
      var rest := Split(s[1..], sep);
      JoinSplit(s[1..], sep);
      if s[0] != sep {
        var r := Split(s, sep);
        assert r == [[s[0]] + rest[0]] + rest[1..];
        if |rest| == 1 {
          assert Join(r, sep) == [s[0]] + rest[0];
        } else {
          assert r[1..] == rest[1..];
          assert Join(r, sep) == [s[0]] + rest[0] + [sep] + Join(rest[1..], sep);
          assert Join(rest, sep) == rest[0] + [sep] + Join(rest[1..], sep);
        }
        assert s == [s[0]] + s[1..];
      }
    }
  }

  /** Splitting a join of separator-free pieces gives the pieces back. */
  lemma {:induction false} SplitJoin(parts: seq<string>, sep: char)
    requires |parts| >= 1
    requires forall i :: 0 <= i < |parts| ==> sep !in parts[i]
    ensures Split(Join(parts, sep), sep) == parts
    decreases |parts|, |parts[0]|
  {
    var p := parts[0];
    if |p| > 0 {
      var parts' := [p[1..]] + parts[1..];
      assert forall i :: 0 <= i < |parts'| ==> sep !in parts'[i] by {
        forall i | 0 <= i < |parts'| ensures sep !in parts'[i] {
          if i == 0 {
            assert forall c :: c in p[1..] ==> c in p;
          } else {
            assert parts'[i] == parts[i];
          }
        }
      }
      SplitJoin(parts', sep);
      var j := Join(parts, sep);
      if |parts| == 1 {
        assert j == p;
        assert j[1..] == Join(parts', sep);
      } else {
        assert parts'[1..] == parts[1..];
        assert j == p + [sep] + Join(parts[1..], sep);
        assert j[1..] == Join(parts', sep);
      }
      assert j[0] == p[0];
      assert p == [p[0]] + p[1..];
      assert p[0] != sep by { assert p[0] in p; }
    } else if |parts| > 1 {
      SplitJoin(parts[1..], sep);
      var j := Join(parts, sep);
      assert j == [sep] + Join(parts[1..], sep);
      assert j[1..] == Join(parts[1..], sep);
    }
  }

  /** The concatenation of a sequence of strings. */
  function Concat(ss: seq<string>): string
  {
    if |ss| == 0 then "" else ss[0] + Concat(ss[1..])
  }

  /** Concatenation distributes over appending sequences of strings. */
  lemma {:induction false} ConcatAppend(a: seq<string>, b: seq<string>)
    ensures Concat(a + b) == Concat(a) + Concat(b)
  {
    if |a| > 0 {
      assert (a + b)[1..] == a[1..] + b;
      ConcatAppend(a[1..], b);
    } else {
      assert a + b == b;
    }
  }

  /** Each string of `lines` followed by "\r\n", as the tester's text boxes build them. */
  function Terminated(lines: seq<string>): (r: string)
  {
    if |lines| == 0 then "" else lines[0] + "\r\n" + Terminated(lines[1..])
  }

  lemma {:induction false} TerminatedAppend(a: seq<string>, b: seq<string>)
    ensures Terminated(a + b) == Terminated(a) + Terminated(b)
  {
    if |a| > 0 {
      assert (a + b)[1..] == a[1..] + b;
      TerminatedAppend(a[1..], b);
    } else {
      assert a + b == b;
    }
  }

  function DigitChar(d: nat): char
    requires d < 10
  {
    ('0' as int + d) as char
  }

  /** The decimal form of n, as int.ToString() writes a non-negative value. */
  function NatToString(n: nat): (r: string)
    ensures |r| >= 1
    ensures forall i :: 0 <= i < |r| ==> '0' <= r[i] <= '9'
  {
    if n < 10 then [DigitChar(n)] else NatToString(n / 10) + [DigitChar(n % 10)]
  }

  /** Whether s begins with p. */
  predicate StartsWith(s: string, p: string)
  {
    |p| <= |s| && s[..|p|] == p
  }
}
