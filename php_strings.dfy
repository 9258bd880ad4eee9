/**
 * The few PHP string primitives the core relies on: `strtoupper`, `trim`,
 * `rtrim($s, '/')`, and PHP's truthiness of strings and nullable strings.
 * `strtoupper` is byte-wise and locale-insensitive: only ASCII a-z change.
 */
module PhpStrings {
  import opened Wrappers

  function UpperChar(c: char): (u: char)
  {
    if 'a' <= c <= 'z' then (c as int - 32) as char else c
  }

  /** PHP `strtoupper`. */
  function Upper(s: string): (r: string)
    ensures |r| == |s|
    ensures forall i :: 0 <= i < |s| ==> r[i] == UpperChar(s[i])
  {
    seq(|s|, i requires 0 <= i < |s| => UpperChar(s[i]))
  }

  /** No ASCII lower-case letter occurs in `s`. */
  predicate IsUpper(s: string)
  {
    forall i :: 0 <= i < |s| ==> !('a' <= s[i] <= 'z')
  }

  /** No ASCII upper-case letter occurs in `s`. */
  predicate IsLower(s: string)
  {
    forall i :: 0 <= i < |s| ==> !('A' <= s[i] <= 'Z')
  }

  lemma UpperIsUpper(s: string)
    ensures IsUpper(Upper(s))
  {
  }

  /** A string with no lower-case letter is its own upper-cased form. */
  lemma UpperOfUpper(s: string)
    requires IsUpper(s)
    ensures Upper(s) == s
  {
  }

  /** Upper-casing twice is upper-casing once. */
  lemma UpperIdempotent(s: string)
    ensures Upper(Upper(s)) == Upper(s)
  {
    assert forall i :: 0 <= i < |s| ==> UpperChar(UpperChar(s[i])) == UpperChar(s[i]);
  }

  /** The characters PHP `trim` strips by default: " \t\n\r\0\x0B". */
  predicate IsTrimmable(c: char)
  {
    c == ' ' || c == '\t' || c == '\n' || c == '\r' || c == 0 as char || c == 11 as char
  }

  /** The number of strippable characters at the start of `s`. */
  function LeadingTrimmable(s: string): (n: nat)
    ensures n <= |s|
    ensures forall i :: 0 <= i < n ==> IsTrimmable(s[i])
    ensures n == |s| || !IsTrimmable(s[n])
  {
    if s != [] && IsTrimmable(s[0]) then 1 + LeadingTrimmable(s[1..]) else 0
  }

  /** The number of strippable characters at the end of `s`. */
  function TrailingTrimmable(s: string): (n: nat)
    ensures n <= |s|
    ensures forall i :: |s| - n <= i < |s| ==> IsTrimmable(s[i])
    ensures n == |s| || !IsTrimmable(s[|s| - n - 1])
  {
    if s != [] && IsTrimmable(s[|s| - 1]) then 1 + TrailingTrimmable(s[..|s| - 1]) else 0
  }

  function TrimLeft(s: string): (r: string)
    ensures |r| <= |s| && r == s[|s| - |r|..]
    ensures r == [] || !IsTrimmable(r[0])
    ensures forall i :: 0 <= i < |s| - |r| ==> IsTrimmable(s[i])
  {
    s[LeadingTrimmable(s)..]
  }

  function TrimRight(s: string): (r: string)
    ensures |r| <= |s| && r == s[..|r|]
    ensures r == [] || !IsTrimmable(r[|r| - 1])
    ensures forall i :: |r| <= i < |s| ==> IsTrimmable(s[i])
  {
    s[..|s| - TrailingTrimmable(s)]
  }

  /** PHP `trim` with its default character list. */
  function Trim(s: string): (r: string)
    ensures |r| <= |s|
    ensures r == [] || (!IsTrimmable(r[0]) && !IsTrimmable(r[|r| - 1]))
  {
    TrimRight(TrimLeft(s))
  }

  /**
   * `trim` removes a run of strippable characters from each end and keeps
   * the contiguous middle of the input.
   */
  lemma TrimIsSlice(s: string)
    ensures |s| - |TrimLeft(s)| + |Trim(s)| <= |s|
    ensures Trim(s) == s[|s| - |TrimLeft(s)|..|s| - |TrimLeft(s)| + |Trim(s)|]
    ensures forall i :: 0 <= i < |s| - |TrimLeft(s)| ==> IsTrimmable(s[i])
    ensures forall i :: |s| - |TrimLeft(s)| + |Trim(s)| <= i < |s| ==> IsTrimmable(s[i])
  {
    var l := TrimLeft(s);
    assert Trim(s) == TrimRight(l);
    PrefixOfSuffix(s, l, TrimRight(l));
  }

  /**
   * A prefix `r` of a suffix `l` of `s` is a slice of `s`, and what `r`
   * leaves of `l` lies at the end of `s`.
   */
  lemma PrefixOfSuffix(s: string, l: string, r: string)
    requires |l| <= |s| && l == s[|s| - |l|..]
    requires |r| <= |l| && r == l[..|r|]
    requires forall i :: |r| <= i < |l| ==> IsTrimmable(l[i])
    ensures r == s[|s| - |l|..|s| - |l| + |r|]
    ensures forall i :: |s| - |l| + |r| <= i < |s| ==> IsTrimmable(s[i])
  {
    var k := |s| - |l|;
    forall i | k + |r| <= i < |s|
      ensures IsTrimmable(s[i])
    {
      assert s[i] == l[i - k];
    }
  }

  /** A string with no strippable character at either end is its own trim. */
  lemma TrimOfTrimmed(s: string)
    requires s == [] || (!IsTrimmable(s[0]) && !IsTrimmable(s[|s| - 1]))
    ensures Trim(s) == s
  {
    assert TrimLeft(s) == s;
  }

  /** Upper-casing never makes a character strippable or not: no strippable character is a letter. */
  lemma UpperCharKeepsTrimmable(c: char)
    ensures IsTrimmable(UpperChar(c)) <==> IsTrimmable(c)
  {
  }

  /** Upper-casing a trimmed string leaves it trimmed. */
  lemma TrimUpperTrim(s: string)
    ensures Trim(Upper(Trim(s))) == Upper(Trim(s))
  {
    var t := Trim(s);
    var u := Upper(t);
    if t != [] {
      UpperCharKeepsTrimmable(t[0]);
      UpperCharKeepsTrimmable(t[|t| - 1]);
      assert u[0] == UpperChar(t[0]) && u[|u| - 1] == UpperChar(t[|t| - 1]);
    }
    TrimOfTrimmed(u);
  }

  /** PHP `rtrim($s, '/')`. */
  function RTrimSlash(s: string): (r: string)
    ensures |r| <= |s| && r == s[..|r|]
    ensures r == [] || r[|r| - 1] != '/'
    ensures forall i :: |r| <= i < |s| ==> s[i] == '/'
  {
    if s != [] && s[|s| - 1] == '/' then RTrimSlash(s[..|s| - 1]) else s
  }

  /** PHP `(string) $x` for a nullable string: null becomes "". */
  function Str(s: Option<string>): (r: string)
    ensures s.None? ==> r == ""
    ensures s.Some? ==> r == s.value
  {
    s.GetOr("")
  }

  /** PHP truthiness of a string: only "" and "0" are falsy. */
  predicate Truthy(s: string)
    ensures |s| >= 2 ==> Truthy(s)
    ensures |s| == 1 ==> (Truthy(s) <==> s[0] != '0')
  {
    s != "" && s != "0"
  }

  /** PHP truthiness of a nullable string: null is falsy too. */
  predicate TruthyOpt(s: Option<string>)
    ensures TruthyOpt(s) <==> Truthy(Str(s))
  {
    s.Some? && Truthy(s.value)
  }
}
