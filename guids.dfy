/** System.Guid as the tester uses it: the all-zero Guid.Empty, the "D"
    string form that ToString() and string interpolation write, and
    Guid.TryParse. */
module Guids {
  import opened Common
  import opened Strings

  type HexDigit = d: int | 0 <= d < 16

  /** A Guid as its 32 hexadecimal digits, in the order ToString writes them. */
  type Guid = s: seq<HexDigit> | |s| == 32 witness seq(32, _ => 0)

  /** Guid.Empty, which the tester uses as "no conversation" and as the
      sender of system messages. */
  const Empty: Guid := [0, 0, 0, 0, 0, 0, 0, 0, 0, 0, 0, 0, 0, 0, 0, 0, 0, 0, 0, 0, 0, 0, 0, 0, 0, 0, 0, 0, 0, 0, 0, 0]

  /** A digit as ToString writes it (lower case). */
  function HexChar(d: HexDigit): char
  {
    if d < 10 then ('0' as int + d) as char else ('a' as int + d - 10) as char
  }

  /** A digit as the parser reads it (either case). */
  function HexValue(c: char): Option<HexDigit>
  {
    if '0' <= c <= '9' then Some(c as int - '0' as int)
    else if 'a' <= c <= 'f' then Some(c as int - 'a' as int + 10)
    else if 'A' <= c <= 'F' then Some(c as int - 'A' as int + 10)
    else None
  }

  lemma HexCharRoundTrip(d: HexDigit)
    ensures HexValue(HexChar(d)) == Some(d)
  {
  }

  function HexString(ds: seq<HexDigit>): (r: string)
    ensures |r| == |ds|
    ensures forall i :: 0 <= i < |ds| ==> r[i] == HexChar(ds[i])
  {
    seq(|ds|, i requires 0 <= i < |ds| => HexChar(ds[i]))
  }

  /** The digits of s, when every character of s is a hexadecimal digit. */
  function ParseHex(s: string): (r: Option<seq<HexDigit>>)
    ensures r.Some? <==> forall i :: 0 <= i < |s| ==> HexValue(s[i]).Some?
    ensures r.Some? ==> |r.value| == |s|
  {
    if forall i :: 0 <= i < |s| ==> HexValue(s[i]).Some? then
      Some(seq(|s|, i requires 0 <= i < |s| => HexValue(s[i]).value))
    else
      None
  }

  lemma ParseHexString(ds: seq<HexDigit>)
    ensures ParseHex(HexString(ds)) == Some(ds)
  {
    var s := HexString(ds);
    forall i | 0 <= i < |s| ensures HexValue(s[i]) == Some(ds[i]) {
      HexCharRoundTrip(ds[i]);
    }
    var parsed := seq(|s|, i requires 0 <= i < |s| => HexValue(s[i]).value);
    assert parsed == ds;
  }

  /** The "D" layout: 36 characters, hyphens after the 8th, 12th, 16th and 20th digit. */
  predicate IsHyphenAt(i: int)
  {
    i == 8 || i == 13 || i == 18 || i == 23
  }

  predicate DLayout(s: string)
  {
    |s| == 36 && s[8] == '-' && s[13] == '-' && s[18] == '-' && s[23] == '-'
  }

  /** How many hyphens the "D" layout writes before digit k. */
  function HyphensBefore(k: int): nat
  {
    if k < 8 then 0 else if k < 12 then 1 else if k < 16 then 2 else if k < 20 then 3 else 4
  }

  /** Which digit the "D" layout writes at a position that is not a hyphen. */
  function DigitAt(i: int): int
  {
    i - (if i < 8 then 0 else if i < 13 then 1 else if i < 18 then 2 else if i < 23 then 3 else 4)
  }

  /** The 32 digit characters of a string in the "D" layout. */
  function DigitsOfD(s: string): (r: string)
    requires |s| == 36
    ensures |r| == 32
  {
    seq(32, k requires 0 <= k < 32 => s[k + HyphensBefore(k)])
  }

  /** Guid.ToString(): "xxxxxxxx-xxxx-xxxx-xxxx-xxxxxxxxxxxx" in lower case. */
  function ToString(g: Guid): (r: string)
    ensures DLayout(r) && DigitsOfD(r) == HexString(g)
    ensures forall i :: 0 <= i < |r| && !IsHyphenAt(i) ==> r[i] == HexChar(g[DigitAt(i)])
  {
    var r := seq(36, i requires 0 <= i < 36 => if IsHyphenAt(i) then '-' else HexChar(g[DigitAt(i)]));
    assert forall k :: 0 <= k < 32 ==> !IsHyphenAt(k + HyphensBefore(k)) && DigitAt(k + HyphensBefore(k)) == k;
    r
  }

  /** The "D" string holds nothing but hyphens and lower-case hexadecimal digits. */
  lemma ToStringChars(g: Guid)
    ensures forall i :: 0 <= i < 36 ==> ToString(g)[i] == '-' || '0' <= ToString(g)[i] <= '9' || 'a' <= ToString(g)[i] <= 'f'
  {
  }

  function ParseDigits(s: string): (r: Option<Guid>)
  {
    if |s| == 32 then
      match ParseHex(s)
      case Some(ds) => Some(ds)
      case None => None
    else
      None
  }

  /** The layouts Guid.TryParse recognises without a format string, except
      the hexadecimal-record "X" layout: "N" (32 digits), "D", and "D"
      wrapped in braces ("B") or in parentheses ("P"). */
  function ParseExact(s: string): Option<Guid>
  {
    if |s| == 32 then ParseDigits(s)
    else if DLayout(s) then ParseDigits(DigitsOfD(s))
    else if |s| == 38 && ((s[0] == '{' && s[37] == '}') || (s[0] == '(' && s[37] == ')'))
            && DLayout(s[1..37]) then
      ParseDigits(DigitsOfD(s[1..37]))
    else None
  }

  /** Guid.TryParse: the Guid written in s, white space around it ignored. */
  function TryParse(s: string): Option<Guid>
  {
    ParseExact(Trim(s))
  }

  /** Parsing what ToString wrote gives back the same Guid. */
  lemma ParseToString(g: Guid)
    ensures TryParse(ToString(g)) == Some(g)
  {
    var s := ToString(g);
    assert s[0] == HexChar(g[0]);
    assert s[35] == HexChar(g[31]);
    TrimUnchanged(s);
    ParseHexString(g);
  }

  /** The "D" string needs no trimming before it is parsed. */
  lemma ParseTrimmedToString(g: Guid)
    ensures TryParse(Trim(ToString(g))) == Some(g)
  {
    var s := ToString(g);
    assert s[0] == HexChar(g[0]) && s[35] == HexChar(g[31]);
    TrimUnchanged(s);
    ParseToString(g);
  }

  /** Different Guids are written differently. */
  lemma ToStringInjective(a: Guid, b: Guid)
    requires ToString(a) == ToString(b)
    ensures a == b
  {
    ParseToString(a);
    ParseToString(b);
  }
}
