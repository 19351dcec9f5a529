/** Cleaning of the symbol list file: each line is stripped of surrounding
    whitespace, blank lines and `#` comments are dropped, and the remaining
    tickers are upper-cased with `.` replaced by `-`. */
module Symbols {
  import opened Wrappers
  import Seqs

  /** The characters Python's `str.strip()` removes (those for which
      `str.isspace()` holds). */
  const Whitespace: set<char> := {
    ' ', '\t', '\n', '\r', '\U{000B}', '\U{000C}',
    '\U{001C}', '\U{001D}', '\U{001E}', '\U{001F}',
    '\U{0085}', '\U{00A0}', '\U{1680}',
    '\U{2000}', '\U{2001}', '\U{2002}', '\U{2003}', '\U{2004}', '\U{2005}',
    '\U{2006}', '\U{2007}', '\U{2008}', '\U{2009}', '\U{200A}',
    '\U{2028}', '\U{2029}', '\U{202F}', '\U{205F}', '\U{3000}'
  }

  predicate IsSpace(c: char)
  {
    c in Whitespace
  }

  predicate AllSpace(s: string)
  {
    forall i :: 0 <= i < |s| ==> IsSpace(s[i])
  }

  predicate IsLower(c: char)
  {
    'a' <= c <= 'z'
  }

  /** Removes leading whitespace (`str.lstrip()`). */
  function TrimStart(s: string): (r: string)
    ensures |r| <= |s|
    ensures r == [] || !IsSpace(r[0])
  {
    if |s| > 0 && IsSpace(s[0]) then TrimStart(s[1..]) else s
  }

  /** Removes trailing whitespace (`str.rstrip()`). */
  function TrimEnd(s: string): (r: string)
    ensures |r| <= |s|
    ensures r == [] || !IsSpace(r[|r| - 1])
    ensures r == [] || r[0] == s[0]
  {
    if |s| > 0 && IsSpace(s[|s| - 1]) then TrimEnd(s[..|s| - 1]) else s
  }

  /** Python's `str.strip()`. */
  function Strip(s: string): (r: string)
    ensures r != [] ==> !IsSpace(r[0]) && !IsSpace(r[|r| - 1])
    ensures |r| <= |s|
  {
    TrimEnd(TrimStart(s))
  }

  /** Leading trimming removes exactly a whitespace prefix and keeps the rest. */
  lemma {:induction false} TrimStartSpec(s: string)
    ensures TrimStart(s) == s[|s| - |TrimStart(s)|..]
    ensures AllSpace(s[..|s| - |TrimStart(s)|])
  {
    if |s| > 0 && IsSpace(s[0]) {
      TrimStartSpec(s[1..]);
      TrimStartStep(s, TrimStart(s[1..]));
    }
  }

  lemma TrimStartStep(s: string, r: string)
    requires |s| > 0 && IsSpace(s[0])
    requires |r| <= |s| - 1 && r == s[1..][|s| - 1 - |r|..]
    requires AllSpace(s[1..][..|s| - 1 - |r|])
    ensures r == s[|s| - |r|..]
    ensures AllSpace(s[..|s| - |r|])
  {
    var n := |s| - |r|;
    forall i | 0 <= i < n
      ensures IsSpace(s[..n][i])
    {
      if i > 0 {
        assert s[..n][i] == s[1..][..n - 1][i - 1];
      }
    }
  }

  /** Trailing trimming removes exactly a whitespace suffix and keeps the rest. */
  lemma {:induction false} TrimEndSpec(s: string)
    ensures TrimEnd(s) == s[..|TrimEnd(s)|]
    ensures AllSpace(s[|TrimEnd(s)|..])
  {
    if |s| > 0 && IsSpace(s[|s| - 1]) {
      TrimEndSpec(s[..|s| - 1]);
      TrimEndStep(s, TrimEnd(s[..|s| - 1]));
    }
  }

  lemma TrimEndStep(s: string, r: string)
    requires |s| > 0 && IsSpace(s[|s| - 1])
    requires |r| <= |s| - 1 && r == s[..|s| - 1][..|r|]
    requires AllSpace(s[..|s| - 1][|r|..])
    ensures r == s[..|r|]
    ensures AllSpace(s[|r|..])
  {
    var n := |r|;
    forall i | 0 <= i < |s| - n
      ensures IsSpace(s[n..][i])
    {
      if i < |s| - 1 - n {
        assert s[n..][i] == s[..|s| - 1][n..][i];
      }
    }
  }

  /** Stripping removes a whitespace prefix and a whitespace suffix and keeps
      the middle; it gives the empty string exactly for all-whitespace input. */
  lemma StripSpec(s: string)
    ensures exists a, b :: 0 <= a <= b <= |s| && Strip(s) == s[a..b] && AllSpace(s[..a]) && AllSpace(s[b..])
    ensures Strip(s) == [] <==> AllSpace(s)
  {
    var u := TrimStart(s);
    var a := |s| - |u|;
    TrimStartSpec(s);
    TrimEndSpec(u);
    var b := a + |TrimEnd(u)|;
    assert Strip(s) == s[a..b];
    assert AllSpace(s[b..]) by {
      assert s[b..] == u[|TrimEnd(u)|..];
    }
    if Strip(s) != [] {
      assert s[a] == Strip(s)[0];
    } else {
      assert u[|TrimEnd(u)|..] == u;
      assert u == [];
      forall i | 0 <= i < |s|
        ensures IsSpace(s[i])
      {
        assert s[..a][i] == s[i];
      }
    }
  }

  /** ASCII upper-casing of one character. */
  function UpperChar(c: char): char
  {
    if IsLower(c) then (c as int - 32) as char else c
  }

  /** `upper()` followed by `replace(".", "-")`, on one character. */
  function CanonChar(c: char): (d: char)
    ensures d != '.' && !IsLower(d)
    ensures IsSpace(d) <==> IsSpace(c)
    ensures d == '#' <==> c == '#'
    ensures c != '.' && !IsLower(c) ==> d == c
    ensures c == '.' ==> d == '-'
    ensures IsLower(c) ==> d as int == c as int - 32
  {
    if c == '.' then '-' else UpperChar(c)
  }

  /** `l.upper().replace(".", "-")` on a whole stripped line. */
  function Canon(t: string): (r: string)
    ensures |r| == |t|
    ensures forall i :: 0 <= i < |r| ==> r[i] == CanonChar(t[i])
  {
    seq(|t|, i requires 0 <= i < |t| => CanonChar(t[i]))
  }

  /** What the cleaning promises of each emitted ticker. */
  predicate IsCleanSymbol(x: string)
  {
    && x != []
    && x[0] != '#'
    && !IsSpace(x[0]) && !IsSpace(x[|x| - 1])
    && forall i :: 0 <= i < |x| ==> x[i] != '.' && !IsLower(x[i])
  }

  /** The ticker one line of the file contributes, if any. */
  function SymbolOf(line: string): (r: Option<string>)
    ensures r.None? <==> (Strip(line) == [] || Strip(line)[0] == '#')
    ensures r.Some? ==> IsCleanSymbol(r.value) && |r.value| <= |line|
    ensures r.Some? ==> |r.value| == |Strip(line)|
    ensures r.Some? ==> forall i :: 0 <= i < |r.value| ==> r.value[i] == CanonChar(Strip(line)[i])
  {
    var t := Strip(line);
    if t == [] || t[0] == '#' then None
    else
      CanonClean(t);
      Some(Canon(t))
  }

  /** A line contributes nothing exactly when it is blank or, once
      stripped, starts with `#`. */
  lemma SymbolOfNone(line: string)
    ensures SymbolOf(line).None? <==> (AllSpace(line) || (Strip(line) != [] && Strip(line)[0] == '#'))
  {
    StripSpec(line);
  }

  /** Canonicalising a stripped, non-comment line gives a clean ticker. */
  lemma CanonClean(t: string)
    requires t != [] && t[0] != '#' && !IsSpace(t[0]) && !IsSpace(t[|t| - 1])
    ensures IsCleanSymbol(Canon(t))
  {
    var c := Canon(t);
    assert c[0] == CanonChar(t[0]);
    assert c[|c| - 1] == CanonChar(t[|t| - 1]);
  }

  /** `read_symbols` on the lines of the file. */
  function CleanSymbols(lines: seq<string>): (r: seq<string>)
    ensures |r| <= |lines|
    ensures forall k :: 0 <= k < |r| ==> IsCleanSymbol(r[k])
  {
    Seqs.FilterMapOrigins(SymbolOf, lines);
    Seqs.FilterMap(SymbolOf, lines)
  }

  /** `read_symbols`'s loop over the file: each line is stripped, tested and,
      when kept, canonicalised and appended. */
  method ReadSymbols(lines: seq<string>) returns (symbols: seq<string>)
    ensures symbols == CleanSymbols(lines)
  {
    symbols := [];
    var i := 0;
    while i < |lines|
      invariant 0 <= i <= |lines|
      invariant symbols == Seqs.FilterMap(SymbolOf, lines[..i])
    {
      var t := Strip(lines[i]);
      Seqs.FilterMapTakeNext(SymbolOf, lines, i);
      if t != [] && t[0] != '#' {
        symbols := symbols + [Canon(t)];
      }
      i := i + 1;
    }
    assert lines[..|lines|] == lines;
  }

  /** A string with no whitespace at either end is its own strip. */
  lemma StripIdempotentOnTrimmed(s: string)
    requires s == [] || (!IsSpace(s[0]) && !IsSpace(s[|s| - 1]))
    ensures Strip(s) == s
  {
  }

  /** A clean ticker cleans to itself. */
  lemma SymbolOfClean(x: string)
    requires IsCleanSymbol(x)
    ensures SymbolOf(x) == Some(x)
  {
    StripIdempotentOnTrimmed(x);
    assert Canon(x) == x;
  }

  /** Cleaning keeps the order of the file: the cleaned concatenation of two
      blocks of lines is the concatenation of the cleaned blocks. */
  lemma CleanSymbolsConcat(a: seq<string>, b: seq<string>)
    ensures CleanSymbols(a + b) == CleanSymbols(a) + CleanSymbols(b)
  {
    Seqs.FilterMapConcat(SymbolOf, a, b);
  }

  /** A ticker is emitted exactly when some line cleans to it. */
  lemma CleanSymbolsMembership(lines: seq<string>, x: string)
    ensures x in CleanSymbols(lines) <==> exists i :: 0 <= i < |lines| && SymbolOf(lines[i]) == Some(x)
  {
    Seqs.FilterMapMembership(SymbolOf, lines, x);
  }

  /** Cleaning an already cleaned list changes nothing. */
  lemma CleanSymbolsIdempotent(lines: seq<string>)
    ensures CleanSymbols(CleanSymbols(lines)) == CleanSymbols(lines)
  {
    var r := CleanSymbols(lines);
    forall k | 0 <= k < |r|
      ensures SymbolOf(r[k]) == Some(r[k])
    {
      SymbolOfClean(r[k]);
    }
    Seqs.FilterMapIdentity(SymbolOf, r);
  }
}
