/** String helpers with the semantics of the Python operations the program uses:
    substring search, prefix tests, `str.strip`, `str.join`, `int()` on digit strings
    and `str()` of a non-negative integer. */
module Text {
  import opened Wrappers

  /** Concatenation is associative (stated once, for any element type). */
  lemma AppendAssoc<T>(a: seq<T>, b: seq<T>, c: seq<T>)
    ensures (a + b) + c == a + (b + c)
  {
  }

  /** `p` occurs in `s` starting at index `k`. */
  predicate OccursAt(s: string, p: string, k: int)
  {
    0 <= k && k + |p| <= |s| && s[k..k + |p|] == p
  }

  /** `re.match` with a literal pattern: `p` is a prefix of `s`. */
  predicate StartsWith(s: string, p: string)
  {
    OccursAt(s, p, 0)
  }

  /** The first index at or after `from` where `p` occurs in `s`. */
  function FindFrom(s: string, p: string, from: nat): (r: Option<nat>)
    decreases |s| - from
    ensures r.Some? ==> from <= r.value && OccursAt(s, p, r.value)
    ensures r.Some? ==> forall j :: from <= j < r.value ==> !OccursAt(s, p, j)
    ensures r.None? ==> forall j :: from <= j ==> !OccursAt(s, p, j)
  {
    if from + |p| > |s| then None
    else if s[from..from + |p|] == p then Some(from)
    else FindFrom(s, p, from + 1)
  }

  /** `re.search` with a literal pattern: the first occurrence of `p` in `s`. */
  function Find(s: string, p: string): (r: Option<nat>)
    ensures r.Some? ==> OccursAt(s, p, r.value) && forall j :: 0 <= j < r.value ==> !OccursAt(s, p, j)
    ensures r.None? ==> forall j :: !OccursAt(s, p, j)
  {
    FindFrom(s, p, 0)
  }

  /** Drops the leading characters that belong to `cs`. */
  function TrimStart(s: string, cs: set<char>): (r: string)
    ensures |r| <= |s| && r == s[|s| - |r|..]
    ensures r == [] || r[0] !in cs
    ensures forall k :: 0 <= k < |s| - |r| ==> s[k] in cs
  {
    if s != [] && s[0] in cs then TrimStart(s[1..], cs) else s
  }

  /** Drops the trailing characters that belong to `cs`. */
  function TrimEnd(s: string, cs: set<char>): (r: string)
    ensures |r| <= |s| && r == s[..|r|]
    ensures r == [] || r[|r| - 1] !in cs
    ensures forall k :: |r| <= k < |s| ==> s[k] in cs
  {
    if s != [] && s[|s| - 1] in cs then TrimEnd(s[..|s| - 1], cs) else s
  }

  /** `r` is the part of `s` from index `i` on, with everything outside it made of `cs`. */
  ghost predicate StrippedCore(s: string, r: string, cs: set<char>, i: int)
  {
    0 <= i && i + |r| <= |s| && s[i..i + |r|] == r
    && (forall k :: 0 <= k < i ==> s[k] in cs)
    && (forall k :: i + |r| <= k < |s| ==> s[k] in cs)
  }

  /** Python's `s.strip(chars)`: removes every leading and every trailing character in `cs`. */
  function Strip(s: string, cs: set<char>): (r: string)
    ensures r == [] || (r[0] !in cs && r[|r| - 1] !in cs)
    ensures exists i :: StrippedCore(s, r, cs, i)
  {
    var t := TrimStart(s, cs);
    var r := TrimEnd(t, cs);
    var i := |s| - |t|;
    assert r != [] ==> r[0] == t[0];
    assert StrippedCore(s, r, cs, i) by {
      assert s[i..][..|r|] == s[i..i + |r|];
      forall k | i + |r| <= k < |s| ensures s[k] in cs {
        assert s[k] == t[k - i];
      }
    }
    r
  }

  /** The characters Python's argument-less `str.strip()` removes (those for which `isspace()` holds). */
  const WHITESPACE: set<char> :=
    {'\U{9}', '\U{A}', '\U{B}', '\U{C}', '\U{D}', '\U{1C}', '\U{1D}', '\U{1E}',
     '\U{1F}', '\U{20}', '\U{85}', '\U{A0}', '\U{1680}', '\U{2000}', '\U{2001}', '\U{2002}',
     '\U{2003}', '\U{2004}', '\U{2005}', '\U{2006}', '\U{2007}', '\U{2008}', '\U{2009}', '\U{200A}',
     '\U{2028}', '\U{2029}', '\U{202F}', '\U{205F}', '\U{3000}'}

  /** `'"' + t + '"'`, the quoting used when arguments are re-joined into a command line. */
  function Quote(t: string): string
  {
    "\"" + t + "\""
  }

  /** Python's `t.strip('"')`. */
  function StripQuotes(t: string): string
  {
    Strip(t, {'"'})
  }

  /** `sep.join(parts)`. */
  function Join(sep: string, parts: seq<string>): (r: string)
    ensures parts == [] ==> r == []
    ensures |parts| == 1 ==> r == parts[0]
  {
    if parts == [] then []
    else if |parts| == 1 then parts[0]
    else parts[0] + sep + Join(sep, parts[1..])
  }

  /** Appending a part to a non-empty join puts exactly one separator before it. */
  lemma {:induction false} JoinSnoc(sep: string, parts: seq<string>, x: string)
    requires parts != []
    ensures Join(sep, parts + [x]) == Join(sep, parts) + sep + x
    decreases |parts|
  {
    var all := parts + [x];
    assert all[0] == parts[0] && all[1..] == parts[1..] + [x];
    if |parts| > 1 {
      JoinSnoc(sep, parts[1..], x);
      assert Join(sep, all) == parts[0] + sep + (Join(sep, parts[1..]) + sep + x);
    } else {
      assert parts[1..] + [x] == [x];
    }
  }

  predicate IsDigit(c: char)
  {
    '0' <= c <= '9'
  }

  /** What the regular expression `\d+` matches (ASCII digits only). */
  predicate IsDigits(s: string)
  {
    |s| > 0 && forall k :: 0 <= k < |s| ==> IsDigit(s[k])
  }

  function DigitValue(c: char): nat
    requires IsDigit(c)
  {
    (c as int) - ('0' as int)
  }

  function DigitChar(d: nat): (c: char)
    requires d < 10
    ensures IsDigit(c) && DigitValue(c) == d
  {
    (('0' as int) + d) as char
  }

  /** Python's `int(s)` on a string of decimal digits (leading zeros allowed). */
  function ParseDigits(s: string): nat
    requires forall k :: 0 <= k < |s| ==> IsDigit(s[k])
  {
    if s == [] then 0 else ParseDigits(s[..|s| - 1]) * 10 + DigitValue(s[|s| - 1])
  }

  /** Python's `str(n)` for a non-negative integer: decimal digits with no leading zero. */
  function NatToString(n: nat): (r: string)
    ensures IsDigits(r)
    ensures r[0] == '0' ==> r == "0"
  {
    if n < 10 then [DigitChar(n)] else NatToString(n / 10) + [DigitChar(n % 10)]
  }

  /** Reading back the decimal form of `n` gives `n`. */
  lemma {:induction false} ParseNatToString(n: nat)
    ensures ParseDigits(NatToString(n)) == n
  {
    var s := NatToString(n);
    if n >= 10 {
      ParseNatToString(n / 10);
      assert s[..|s| - 1] == NatToString(n / 10);
    } else {
      assert s[..|s| - 1] == [];
    }
  }

  /** Removing the quotes added by `Quote` gives the word back when the word has no quote at either end. */
  lemma {:induction false} StripQuotesOfQuote(t: string)
    requires t == [] || (t[0] != '"' && t[|t| - 1] != '"')
    ensures StripQuotes(Quote(t)) == t
  {
    var cs := {'"'};
    TrimStartOfQuote(t);
    if t != [] {
      TrimEndOfClosed(t);
    }
    assert StripQuotes(Quote(t)) == TrimEnd(TrimStart(Quote(t), cs), cs);
  }

  /** The opening quote goes; what follows it does not start with a quote. */
  lemma {:induction false} TrimStartOfQuote(t: string)
    requires t == [] || t[0] != '"'
    ensures TrimStart(Quote(t), {'"'}) == if t == [] then [] else t + "\""
  {
    var cs := {'"'};
    var q := Quote(t);
    var tail := t + "\"";
    assert q[0] == '"' && q[1..] == tail;
    assert TrimStart(q, cs) == TrimStart(tail, cs);
    if t == [] {
      assert tail[1..] == [];
      assert TrimStart(tail, cs) == TrimStart([], cs);
    } else {
      assert tail[0] == t[0];
    }
  }

  /** The closing quote goes; what precedes it does not end with a quote. */
  lemma {:induction false} TrimEndOfClosed(t: string)
    requires t != [] && t[|t| - 1] != '"'
    ensures TrimEnd(t + "\"", {'"'}) == t
  {
    var tail := t + "\"";
    assert tail[..|tail| - 1] == t;
  }
}
