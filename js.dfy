/**
 * The JavaScript primitives the backend and the frontend lean on, over `seq<char>`:
 * `trim`, `parseInt`, number-to-string, `split`/`join`, `startsWith`/`includes`,
 * a global literal `replace` and ASCII case mapping.
 */
module Js {
  import opened Wrappers

  /** ECMAScript WhiteSpace and LineTerminator code points: what `trim`, `parseInt` and `\s` skip. */
  predicate IsSpace(c: char)
  {
    c == '\t' || c == '\n' || c == '\U{000B}' || c == '\U{000C}' || c == '\r' || c == ' '
    || c == '\U{00A0}' || c == '\U{1680}' || ('\U{2000}' <= c <= '\U{200A}')
    || c == '\U{2028}' || c == '\U{2029}' || c == '\U{202F}' || c == '\U{205F}'
    || c == '\U{3000}' || c == '\U{FEFF}'
  }

  predicate AllSpace(s: string)
  {
    forall i :: 0 <= i < |s| ==> IsSpace(s[i])
  }

  /** `String.prototype.trimStart`: the longest suffix that does not start with white space. */
  function TrimStart(s: string): (r: string)
    ensures |r| <= |s| && r == s[|s| - |r|..]
    ensures AllSpace(s[..|s| - |r|])
    ensures r == [] || !IsSpace(r[0])
  {
    if |s| > 0 && IsSpace(s[0]) then
      var r := TrimStart(s[1..]);
      assert s[..|s| - |r|] == [s[0]] + s[1..][..|s| - 1 - |r|];
      r
    else s
  }

  /** `String.prototype.trimEnd`: the longest prefix that does not end with white space. */
  function TrimEnd(s: string): (r: string)
    ensures |r| <= |s| && r == s[..|r|]
    ensures AllSpace(s[|r|..])
    ensures r == [] || !IsSpace(r[|r| - 1])
  {
    if |s| > 0 && IsSpace(s[|s| - 1]) then
      var r := TrimEnd(s[..|s| - 1]);
      assert s[|r|..] == s[..|s| - 1][|r|..] + [s[|s| - 1]];
      r
    else s
  }

  /** `String.prototype.trim`. */
  function Trim(s: string): (r: string)
    ensures r == [] || (!IsSpace(r[0]) && !IsSpace(r[|r| - 1]))
    ensures exists i, j :: 0 <= i <= j <= |s| && r == s[i..j] && AllSpace(s[..i]) && AllSpace(s[j..])
  {
    var t := TrimStart(s);
    var r := TrimEnd(t);
    var i := |s| - |t|;
    assert r == s[i..i + |r|];
    assert s[i + |r|..] == t[|r|..];
    r
  }

  /** A string trims to "" exactly when every character of it is white space. */
  lemma TrimBlank(s: string)
    ensures Trim(s) == [] <==> AllSpace(s)
  {
    assert s[..|s|] == s;
  }

  /** Trimming twice is trimming once. */
  lemma TrimIdempotent(s: string)
    ensures Trim(Trim(s)) == Trim(s)
  {
    var r := Trim(s);
    if r != [] {
      assert TrimStart(r) == r;
      assert TrimEnd(r) == r;
    }
  }

  predicate IsDecimalDigit(c: char)
  {
    '0' <= c <= '9'
  }

  /** The value of `c` as a digit of `radix` (10 or 16, either letter case), if it is one. */
  function DigitIn(c: char, radix: nat): (r: Option<nat>)
    requires radix == 10 || radix == 16
    ensures r.Some? ==> r.value < radix
    ensures radix == 10 ==> (r.Some? <==> IsDecimalDigit(c))
  {
    if '0' <= c <= '9' then Some(c as nat - '0' as nat)
    else if radix == 16 && 'a' <= c <= 'f' then Some(c as nat - 'a' as nat + 10)
    else if radix == 16 && 'A' <= c <= 'F' then Some(c as nat - 'A' as nat + 10)
    else None
  }

  /** The length of the longest prefix of `s` made of digits of `radix`. */
  function DigitRun(s: string, radix: nat): (n: nat)
    requires radix == 10 || radix == 16
    ensures n <= |s|
    ensures forall i :: 0 <= i < n ==> DigitIn(s[i], radix).Some?
    ensures n == |s| || DigitIn(s[n], radix).None?
  {
    if |s| > 0 && DigitIn(s[0], radix).Some? then 1 + DigitRun(s[1..], radix) else 0
  }

  /** Positional value of a digit string, most significant digit first. */
  function DigitsValue(ds: string, radix: nat): nat
    requires radix == 10 || radix == 16
    requires forall i :: 0 <= i < |ds| ==> DigitIn(ds[i], radix).Some?
  {
    if ds == [] then 0
    else DigitsValue(ds[..|ds| - 1], radix) * radix + DigitIn(ds[|ds| - 1], radix).value
  }

  /** The longest digit prefix of `body` read in `radix`; no digit at all is NaN. */
  function ParseDigits(body: string, radix: nat): Option<nat>
    requires radix == 10 || radix == 16
  {
    var n := DigitRun(body, radix);
    if n == 0 then None else Some(DigitsValue(body[..n], radix))
  }

  /** The number after the sign: with `auto`, a `0x`/`0X` prefix switches to base 16. */
  function ParseUnsigned(u: string, auto: bool): Option<nat>
  {
    if auto && |u| >= 2 && u[0] == '0' && (u[1] == 'x' || u[1] == 'X') then ParseDigits(u[2..], 16)
    else ParseDigits(u, 10)
  }

  function ParseSigned(t: string, auto: bool): Option<int>
  {
    if |t| > 0 && t[0] == '-' then
      match ParseUnsigned(t[1..], auto)
      case None => None
      case Some(m) => Some(-(m as int))
    else
      var u := if |t| > 0 && t[0] == '+' then t[1..] else t;
      match ParseUnsigned(u, auto)
      case None => None
      case Some(m) => Some(m)
  }

  /**
   * ECMAScript `parseInt`: skip leading white space, take an optional sign, then the longest
   * run of digits; no digit at all is NaN (`None`). With `auto` (no radix argument) a
   * `0x`/`0X` prefix switches to base 16; `parseInt(s, 10)` never does.
   */
  function ParseIntRadix(s: string, auto: bool): Option<int>
  {
    ParseSigned(TrimStart(s), auto)
  }

  /** `parseInt(s)`. */
  function ParseInt(s: string): Option<int>
  {
    ParseIntRadix(s, true)
  }

  /** `parseInt(s, 10)`. */
  function ParseInt10(s: string): Option<int>
  {
    ParseIntRadix(s, false)
  }

  /** JavaScript's `parseInt(...) || d`: NaN and 0 are both falsy. */
  function OrDefault(p: Option<int>, d: int): (r: int)
    ensures p.Some? && p.value != 0 ==> r == p.value
    ensures p.None? || p.value == 0 ==> r == d
  {
    if p.Some? && p.value != 0 then p.value else d
  }

  function DigitChar(d: nat): (c: char)
    requires d < 10
    ensures IsDecimalDigit(c) && DigitIn(c, 10) == Some(d)
  {
    ('0' as nat + d) as char
  }

  /** Decimal rendering of a natural number, without leading zeros. */
  function NatToString(n: nat): (r: string)
    ensures |r| > 0 && forall i :: 0 <= i < |r| ==> IsDecimalDigit(r[i])
    ensures r[0] == '0' ==> n == 0
  {
    if n < 10 then [DigitChar(n)] else NatToString(n / 10) + [DigitChar(n % 10)]
  }

  /** `String(n)` for an integer-valued number. */
  function IntToString(n: int): (r: string)
    ensures |r| > 0
    ensures n < 0 <==> r[0] == '-'
  {
    if n < 0 then "-" + NatToString(-n) else NatToString(n)
  }

  lemma {:induction false} NatToStringValue(n: nat)
    ensures DigitRun(NatToString(n), 10) == |NatToString(n)|
    ensures DigitsValue(NatToString(n), 10) == n
  {
    var r := NatToString(n);
    if n >= 10 {
      NatToStringValue(n / 10);
      assert r[..|r| - 1] == NatToString(n / 10);
    }
  }

  lemma NoLeadingSpace(s: string)
    requires s == [] || !IsSpace(s[0])
    ensures TrimStart(s) == s
  {
  }

  lemma ParseUnsignedOfNat(m: nat, rest: string, auto: bool)
    requires rest == [] || !IsDecimalDigit(rest[0])
    requires !auto || rest == []
    ensures ParseUnsigned(NatToString(m) + rest, auto) == Some(m)
  {
    var d := NatToString(m);
    NatToStringValue(m);
    DigitRunAppend(d, rest);
    assert (d + rest)[..|d|] == d;
    if |d| >= 2 {
      assert (d + rest)[1] == d[1];
    }
  }

  /** Parsing a rendered integer gives it back, with or without the radix argument. */
  lemma ParseIntOfIntToString(n: int)
    ensures ParseInt10(IntToString(n)) == Some(n)
    ensures ParseInt(IntToString(n)) == Some(n)
  {
    ParseSignedOfIntToString(n, false);
    ParseSignedOfIntToString(n, true);
  }

  lemma ParseSignedOfIntToString(n: int, auto: bool)
    ensures ParseIntRadix(IntToString(n), auto) == Some(n)
  {
    var s := IntToString(n);
    NoLeadingSpace(s);
    if n < 0 {
      ParseUnsignedOfNat(-n, [], auto);
      assert s[1..] == NatToString(-n) + [];
    } else {
      ParseUnsignedOfNat(n, [], auto);
      assert s == NatToString(n) + [];
    }
  }

  /** Leading white space never changes what `parseInt` reads. */
  lemma ParseIntSkipsSpace(w: string, s: string, auto: bool)
    requires AllSpace(w)
    ensures ParseIntRadix(w + s, auto) == ParseIntRadix(s, auto)
  {
    TrimStartSkips(w, s);
  }

  lemma {:induction false} TrimStartSkips(w: string, s: string)
    requires AllSpace(w)
    ensures TrimStart(w + s) == TrimStart(s)
  {
    if w != [] {
      assert (w + s)[1..] == w[1..] + s;
      TrimStartSkips(w[1..], s);
    } else {
      assert w + s == s;
    }
  }

  /** A blank string (empty or all white space) is NaN to `parseInt`. */
  lemma ParseIntBlank(s: string, auto: bool)
    requires AllSpace(s)
    ensures ParseIntRadix(s, auto) == None
  {
    assert TrimStart(s) == [];
  }

  /** `parseInt(s, 10)` stops at the first non-digit after the number: "12abc" reads as 12. */
  lemma ParseInt10Prefix(n: nat, rest: string)
    requires rest == [] || !IsDecimalDigit(rest[0])
    ensures ParseInt10(NatToString(n) + rest) == Some(n)
  {
    var d := NatToString(n);
    var s := d + rest;
    assert s[0] == d[0];
    NoLeadingSpace(s);
    ParseUnsignedOfNat(n, rest, false);
    UnsignedText(s, false);
  }

  /** Text that starts with a digit has no sign: it reads as its unsigned number. */
  lemma UnsignedText(t: string, auto: bool)
    requires |t| > 0 && IsDecimalDigit(t[0]) && ParseUnsigned(t, auto).Some?
    ensures ParseSigned(t, auto) == Some(ParseUnsigned(t, auto).value as int)
  {
  }

  lemma {:induction false} DigitRunAppend(d: string, rest: string)
    requires DigitRun(d, 10) == |d|
    requires rest == [] || !IsDecimalDigit(rest[0])
    ensures DigitRun(d + rest, 10) == |d|
  {
    if d != [] {
      assert (d + rest)[1..] == d[1..] + rest;
      DigitRunAppend(d[1..], rest);
    } else {
      assert d + rest == rest;
    }
  }

  predicate StartsWith(s: string, p: string)
  {
    |p| <= |s| && s[..|p|] == p
  }

  /** `String.prototype.includes`. */
  predicate Contains(s: string, sub: string)
  {
    exists i :: 0 <= i <= |s| && StartsWith(s[i..], sub)
  }

  /** The empty string is contained in every string (`"abc".includes("")` is true). */
  lemma ContainsEmpty(s: string)
    ensures Contains(s, [])
  {
    assert StartsWith(s[0..], []);
  }

  /** Every string contains itself. */
  lemma ContainsSelf(s: string)
    ensures Contains(s, s)
  {
    assert StartsWith(s[0..], s);
  }

  /** ASCII part of `toLowerCase`. */
  function LowerChar(c: char): char
  {
    if 'A' <= c <= 'Z' then (c as int + 32) as char else c
  }

  /** ASCII part of `toUpperCase`. */
  function UpperChar(c: char): char
  {
    if 'a' <= c <= 'z' then (c as int - 32) as char else c
  }

  function ToLower(s: string): (r: string)
    ensures |r| == |s|
  {
    seq(|s|, i requires 0 <= i < |s| => LowerChar(s[i]))
  }

  function ToUpper(s: string): (r: string)
    ensures |r| == |s|
  {
    seq(|s|, i requires 0 <= i < |s| => UpperChar(s[i]))
  }

  /** `s.substring(0, n)` for `n >= 0`. */
  function Take(s: string, n: nat): (r: string)
    ensures |r| == if n < |s| then n else |s|
    ensures r == s[..|r|]
  {
    if n < |s| then s[..n] else s
  }

  /** The position of the first `c` in `s`, if any. */
  function IndexOfChar(s: string, c: char): (r: Option<nat>)
    ensures r.None? ==> c !in s
    ensures r.Some? ==> r.value < |s| && s[r.value] == c && c !in s[..r.value]
  {
    if |s| == 0 then None
    else if s[0] == c then Some(0)
    else
      match IndexOfChar(s[1..], c)
      case None => None
      case Some(k) =>
        assert s[..k + 1] == [s[0]] + s[1..][..k];
        Some(k + 1)
  }

  /** `s.split(sep)` for a one-character separator: always at least one piece, none holding `sep`. */
  function Split(s: string, sep: char): (r: seq<string>)
    ensures |r| >= 1
    ensures forall i :: 0 <= i < |r| ==> sep !in r[i]
    decreases |s|
  {
    match IndexOfChar(s, sep)
    case None => [s]
    case Some(k) => [s[..k]] + Split(s[k + 1..], sep)
  }

  /** `parts.join(sep)`. */
  function Join(parts: seq<string>, sep: string): string
  {
    if |parts| == 0 then ""
    else if |parts| == 1 then parts[0]
    else parts[0] + sep + Join(parts[1..], sep)
  }

  /** Joining the pieces of a split with the same separator gives the original string back. */
  lemma {:induction false} JoinSplit(s: string, sep: char)
    ensures Join(Split(s, sep), [sep]) == s
    decreases |s|
  {
    match IndexOfChar(s, sep)
    case None =>
    case Some(k) =>
      JoinSplit(s[k + 1..], sep);
      var rest := Split(s[k + 1..], sep);
      assert Split(s, sep) == [s[..k]] + rest;
      assert ([s[..k]] + rest)[1..] == rest;
      assert s == s[..k] + [sep] + s[k + 1..];
  }

  /**
   * `s.replace(/pat/g, rep)` with a literal pattern and a replacement that holds no `$`
   * pattern: scan left to right and replace each non-overlapping occurrence.
   */
  function ReplaceAll(s: string, pat: string, rep: string): string
    requires |pat| > 0
    decreases |s|
  {
    if |s| == 0 then s
    else if StartsWith(s, pat) then rep + ReplaceAll(s[|pat|..], pat, rep)
    else [s[0]] + ReplaceAll(s[1..], pat, rep)
  }

  /** `s.replace(pat, rep)` with a literal pattern: only the first occurrence is replaced. */
  function ReplaceFirst(s: string, pat: string, rep: string): string
    decreases |s|
  {
    if StartsWith(s, pat) then rep + s[|pat|..]
    else if |s| == 0 then s
    else [s[0]] + ReplaceFirst(s[1..], pat, rep)
  }

  /** A string with no occurrence of the pattern is left as it is. */
  lemma {:induction false} ReplaceAbsent(s: string, pat: string, rep: string)
    requires |pat| > 0 && !Contains(s, pat)
    ensures ReplaceAll(s, pat, rep) == s
    decreases |s|
  {
    if |s| > 0 {
      assert s[0..] == s;
      assert !StartsWith(s, pat);
      ReplaceAbsent(s[1..], pat, rep);
    }
  }

  /** A single occurrence between two pattern-free pieces is replaced, and nothing else changes. */
  lemma ReplaceOne(a: string, b: string, pat: string, rep: string)
    requires |pat| > 0 && pat[0] !in pat[1..]
    requires !Contains(a, pat) && !Contains(b, pat)
    ensures ReplaceAll(a + pat + b, pat, rep) == a + rep + b
  {
    ReplaceAbsent(b, pat, rep);
    ReplacePrefix(a, pat + b, pat, rep);
    assert a + pat + b == a + (pat + b);
    assert (pat + b)[..|pat|] == pat;
    assert (pat + b)[|pat|..] == b;
  }

  /** Scanning a self-delimiting pattern through a pattern-free prefix copies that prefix. */
  lemma {:induction false} ReplacePrefix(a: string, t: string, pat: string, rep: string)
    requires |pat| > 0 && pat[0] !in pat[1..]
    requires !Contains(a, pat) && StartsWith(t, pat)
    ensures ReplaceAll(a + t, pat, rep) == a + ReplaceAll(t, pat, rep)
    decreases |a|
  {
    if |a| > 0 {
      var s := a + t;
      assert !StartsWith(s, pat) by {
        if |pat| <= |a| {
          assert s[..|pat|] == a[0..][..|pat|];
        } else {
          assert s[|a|] == pat[0];
          assert pat[1..][|a| - 1] == pat[|a|];
        }
      }
      assert s[1..] == a[1..] + t;
      assert !Contains(a[1..], pat) by {
        forall i | 0 <= i <= |a[1..]| ensures !StartsWith(a[1..][i..], pat) {
          assert a[1..][i..] == a[i + 1..];
        }
      }
      ReplacePrefix(a[1..], t, pat, rep);
      ConsSplit(a, ReplaceAll(t, pat, rep));
    } else {
      assert a + t == t;
    }
  }

  /** A prefix that holds no occurrence of the pattern's first character is copied unchanged. */
  lemma {:induction false} ReplaceSkip(a: string, t: string, pat: string, rep: string)
    requires |pat| > 0 && pat[0] !in a
    ensures ReplaceAll(a + t, pat, rep) == a + ReplaceAll(t, pat, rep)
    decreases |a|
  {
    if |a| > 0 {
      var s := a + t;
      assert s[0] == a[0];
      assert !StartsWith(s, pat);
      assert s[1..] == a[1..] + t;
      ReplaceSkip(a[1..], t, pat, rep);
      ConsSplit(a, ReplaceAll(t, pat, rep));
    } else {
      assert a + t == t;
    }
  }

  /** A non-empty front that does not start the pattern and holds no later start of it is copied. */
  lemma ReplaceSkipHead(a: string, t: string, pat: string, rep: string)
    requires |pat| > 0 && |a| > 0 && !StartsWith(a + t, pat) && pat[0] !in a[1..]
    ensures ReplaceAll(a + t, pat, rep) == a + ReplaceAll(t, pat, rep)
  {
    var s := a + t;
    assert s[1..] == a[1..] + t;
    ReplaceStep(s, pat, rep);
    ReplaceSkip(a[1..], t, pat, rep);
    ConsSplit(a, ReplaceAll(t, pat, rep));
  }

  /** Text that does not start with the pattern keeps its first character. */
  lemma ReplaceStep(s: string, pat: string, rep: string)
    requires |pat| > 0 && |s| > 0 && !StartsWith(s, pat)
    ensures ReplaceAll(s, pat, rep) == [s[0]] + ReplaceAll(s[1..], pat, rep)
  {
  }

  /** A non-empty front is its first element followed by the rest. */
  lemma ConsSplit<T>(a: seq<T>, r: seq<T>)
    requires |a| > 0
    ensures [a[0]] + (a[1..] + r) == a + r
  {
    assert a == [a[0]] + a[1..];
  }

  /** `Array.prototype.filter`: keeps, in order, exactly the elements satisfying `p`. */
  function Filter<T>(s: seq<T>, p: T -> bool): (r: seq<T>)
    ensures |r| <= |s|
    ensures forall i :: 0 <= i < |r| ==> r[i] in s && p(r[i])
    ensures forall i :: 0 <= i < |s| && p(s[i]) ==> s[i] in r
    ensures multiset(r) <= multiset(s)
  {
    if |s| == 0 then []
    else
      var rest := Filter(s[..|s| - 1], p);
      assert s == s[..|s| - 1] + [s[|s| - 1]];
      if p(s[|s| - 1]) then rest + [s[|s| - 1]] else rest
  }
  /** Filtering a concatenation filters each part in turn: the kept elements stay in order. */
  lemma {:induction false} FilterAppend<T>(a: seq<T>, b: seq<T>, p: T -> bool)
    ensures Filter(a + b, p) == Filter(a, p) + Filter(b, p)
    decreases |b|
  {
    if |b| > 0 {
      var b' := b[..|b| - 1];
      assert (a + b)[..|a + b| - 1] == a + b';
      assert (a + b)[|a + b| - 1] == b[|b| - 1];
      FilterAppend(a, b', p);
    } else {
      assert a + b == a;
    }
  }

  /** A non-empty sequence is its front followed by its last element. */
  lemma LastSplit<T>(s: seq<T>)
    requires |s| > 0
    ensures s == s[..|s| - 1] + [s[|s| - 1]]
  {
  }

  /** Filtering keeps each element satisfying `p` as often as it occurs, and no other. */
  lemma {:induction false} FilterCount<T>(s: seq<T>, p: T -> bool, x: T)
    ensures multiset(Filter(s, p))[x] == if p(x) then multiset(s)[x] else 0
  {
    if |s| > 0 {
      var init := s[..|s| - 1];
      LastSplit(s);
      FilterCount(init, p, x);
    }
  }

  /** When every element satisfies `p`, filtering changes nothing. */
  lemma {:induction false} FilterKeepsAll<T>(s: seq<T>, p: T -> bool)
    requires forall i :: 0 <= i < |s| ==> p(s[i])
    ensures Filter(s, p) == s
  {
    if |s| > 0 {
      var init := s[..|s| - 1];
      LastSplit(s);
      FilterKeepsAll(init, p);
    }
  }
}
