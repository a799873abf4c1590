/** Optional values, used wherever the source may produce `null`, `undefined` or `NaN`. */
module Prelude {
  datatype Option<T> = None | Some(value: T)
}

/**
 * String primitives with JavaScript semantics: white space as `trim` and the
 * regular-expression class `\s` see it, `parseInt(s, 10)`, decimal rendering of
 * integers, `split` and global `replace` with a literal pattern.
 */
module Strings {
  import opened Prelude

  /** The characters that `String.prototype.trim` removes and `\s` matches. */
  predicate IsWhitespace(c: char) {
    || c == ' ' || c == '\t' || c == '\n' || c == '\r' || c == '\U{B}' || c == '\U{C}'
    || c == '\U{A0}' || c == '\U{1680}' || ('\U{2000}' <= c <= '\U{200A}')
    || c == '\U{2028}' || c == '\U{2029}' || c == '\U{202F}' || c == '\U{205F}'
    || c == '\U{3000}' || c == '\U{FEFF}'
  }

  predicate IsDigit(c: char) {
    '0' <= c <= '9'
  }

  predicate AllDigits(s: string) {
    forall i :: 0 <= i < |s| ==> IsDigit(s[i])
  }

  predicate NoWhitespace(s: string) {
    forall i :: 0 <= i < |s| ==> !IsWhitespace(s[i])
  }

  /** `c` does not occur in `s`. */
  predicate Lacks(s: string, c: char) {
    forall i :: 0 <= i < |s| ==> s[i] != c
  }

  lemma LacksConcat(a: string, b: string, c: char)
    requires Lacks(a, c) && Lacks(b, c)
    ensures Lacks(a + b, c)
  {
    forall i | 0 <= i < |a + b| ensures (a + b)[i] != c {
      if i >= |a| { assert (a + b)[i] == b[i - |a|]; }
    }
  }

  predicate StartsWith(s: string, p: string) {
    |p| <= |s| && s[..|p|] == p
  }

  predicate EndsWith(s: string, p: string) {
    |p| <= |s| && s[|s| - |p|..] == p
  }

  // ---------------------------------------------------------------------------
  // trim

  /** Removes the leading run of white space. */
  function TrimStart(s: string): (r: string)
    ensures |r| <= |s| && r == s[|s| - |r|..]
    ensures forall i :: 0 <= i < |s| - |r| ==> IsWhitespace(s[i])
    ensures r == [] || !IsWhitespace(r[0])
  {
    if s != [] && IsWhitespace(s[0]) then TrimStart(s[1..]) else s
  }

  /** Removes the trailing run of white space. */
  function TrimEnd(s: string): (r: string)
    ensures |r| <= |s| && r == s[..|r|]
    ensures forall i :: |r| <= i < |s| ==> IsWhitespace(s[i])
    ensures r == [] || !IsWhitespace(r[|r| - 1])
  {
    if s != [] && IsWhitespace(s[|s| - 1]) then TrimEnd(s[..|s| - 1]) else s
  }

  /** `String.prototype.trim`. */
  function Trim(s: string): (r: string)
    ensures |r| <= |s|
    ensures r == [] || (!IsWhitespace(r[0]) && !IsWhitespace(r[|r| - 1]))
    ensures r == [] <==> forall i :: 0 <= i < |s| ==> IsWhitespace(s[i])
  {
    TrimEnd(TrimStart(s))
  }

  // ---------------------------------------------------------------------------
  // decimal numbers

  function DigitChar(d: nat): (c: char)
    requires d < 10
    ensures IsDigit(c)
  {
    ('0' as int + d) as char
  }

  function DigitValue(c: char): (d: nat)
    requires IsDigit(c)
    ensures d < 10 && DigitChar(d) == c
  {
    c as int - '0' as int
  }

  /** Value of a run of decimal digits, most significant first. */
  function DigitsValue(ds: string): nat
    requires AllDigits(ds)
  {
    if ds == [] then 0 else DigitsValue(ds[..|ds| - 1]) * 10 + DigitValue(ds[|ds| - 1])
  }

  /** Length of the leading run of decimal digits. */
  function LeadingDigits(s: string): (n: nat)
    ensures n <= |s| && AllDigits(s[..n])
    ensures n < |s| ==> !IsDigit(s[n])
  {
    if s != [] && IsDigit(s[0]) then 1 + LeadingDigits(s[1..]) else 0
  }

  /** Shortest decimal rendering of a natural number. */
  function NatToDecimal(n: nat): (s: string)
    ensures s != [] && AllDigits(s)
    ensures |s| == 1 <==> n < 10
    ensures 10 <= n < 100 ==> |s| == 2
  {
    if n < 10 then [DigitChar(n)] else NatToDecimal(n / 10) + [DigitChar(n % 10)]
  }

  /** `String(n)` for an integer `n`. */
  function IntToDecimal(n: int): (s: string)
    ensures s != []
  {
    if n < 0 then "-" + NatToDecimal(-n) else NatToDecimal(n)
  }

  /** `String(n).padStart(2, "0")`. */
  function Pad2(n: nat): (s: string)
    ensures |s| >= 2 && AllDigits(s)
    ensures n < 100 ==> |s| == 2
  {
    if n < 10 then "0" + NatToDecimal(n) else NatToDecimal(n)
  }

  /** The value of the leading run of digits of `body`, `None` when there is none. */
  function ParseDigits(body: string): (r: Option<int>)
    ensures r.Some? ==> r.value >= 0
  {
    var n := LeadingDigits(body);
    if n == 0 then None else Some(DigitsValue(body[..n]))
  }

  /**
   * `parseInt(s, 10)`: skips leading white space, reads an optional sign and
   * the longest run of decimal digits after it; no digit at all is `NaN`
   * (`None`).
   */
  function ParseInt(s: string): (r: Option<int>)
    decreases |s|
  {
    if s != [] && IsWhitespace(s[0]) then ParseInt(s[1..]) else ParseSigned(s)
  }

  /** The optional sign and the digits after the white space. */
  function ParseSigned(t: string): (r: Option<int>)
  {
    if t != [] && t[0] == '-' then
      match ParseDigits(t[1..])
      case None => None
      case Some(v) => Some(-v)
    else if t != [] && t[0] == '+' then ParseDigits(t[1..])
    else ParseDigits(t)
  }

  lemma {:induction false} DigitsValueOfNat(n: nat)
    ensures DigitsValue(NatToDecimal(n)) == n
  {
    if n >= 10 {
      var s := NatToDecimal(n);
      DigitsValueOfNat(n / 10);
      assert s[..|s| - 1] == NatToDecimal(n / 10);
    }
  }

  lemma {:induction false} LeadingZeroIgnored(ds: string)
    requires AllDigits(ds)
    ensures AllDigits("0" + ds) && DigitsValue("0" + ds) == DigitsValue(ds)
  {
    if ds != [] {
      var z := "0" + ds;
      assert z[..|z| - 1] == "0" + ds[..|ds| - 1];
      LeadingZeroIgnored(ds[..|ds| - 1]);
    }
  }

  lemma LeadingDigitsAll(s: string)
    requires AllDigits(s)
    ensures LeadingDigits(s) == |s|
  {
    if s != [] {
      LeadingDigitsAll(s[1..]);
    }
  }

  lemma ParseDigitsAll(ds: string)
    requires ds != [] && AllDigits(ds)
    ensures ParseDigits(ds) == Some(DigitsValue(ds))
  {
    LeadingDigitsAll(ds);
    assert ds[..|ds|] == ds;
  }

  lemma TrimStartKeeps(s: string)
    requires s == [] || !IsWhitespace(s[0])
    ensures TrimStart(s) == s
  {
  }

  lemma TrimEndKeeps(s: string)
    requires s == [] || !IsWhitespace(s[|s| - 1])
    ensures TrimEnd(s) == s
  {
  }

  /** `trim` leaves a string without white space as it is. */
  lemma TrimKeeps(s: string)
    ensures NoWhitespace(s) ==> Trim(s) == s
  {
    if NoWhitespace(s) {
      TrimStartKeeps(s);
      TrimEndKeeps(s);
    }
  }

  /** `parseInt` reads back what `String(n)` writes. */
  lemma ParseIntOfDecimal(n: int)
    ensures ParseInt(IntToDecimal(n)) == Some(n)
  {
    var m := if n < 0 then -n else n;
    var ds := NatToDecimal(m);
    DigitsValueOfNat(m);
    ParseDigitsAll(ds);
    var s := IntToDecimal(n);
    if n < 0 {
      assert s == "-" + ds;
      assert s[1..] == ds;
    } else {
      assert s == ds;
      assert s[0] != '-' && s[0] != '+';
    }
  }

  /** `parseInt` reads back a zero-padded two-digit field, leading zero and all. */
  lemma ParseIntOfPad2(n: nat)
    ensures ParseInt(Pad2(n)) == Some(n)
  {
    var ds := Pad2(n);
    DigitsValueOfNat(n);
    if n < 10 {
      LeadingZeroIgnored(NatToDecimal(n));
    }
    ParseDigitsAll(ds);
    assert ds[0] != '-' && ds[0] != '+';
  }

  // ---------------------------------------------------------------------------
  // search, split, replace

  predicate OccursAt(s: string, pat: string, j: int) {
    0 <= j && j + |pat| <= |s| && s[j..j + |pat|] == pat
  }

  /** `s.indexOf(pat)`: the first position where `pat` occurs. */
  function Find(s: string, pat: string): (r: Option<nat>)
    requires |pat| > 0
    ensures r.Some? ==> OccursAt(s, pat, r.value)
    ensures r.Some? ==> forall j :: 0 <= j < r.value ==> !OccursAt(s, pat, j)
    ensures r.None? ==> forall j :: 0 <= j ==> !OccursAt(s, pat, j)
  {
    if |s| < |pat| then None
    else if s[..|pat|] == pat then Some(0)
    else
      var rest := Find(s[1..], pat);
      assert forall j {:trigger OccursAt(s, pat, j)} :: 1 <= j ==> (OccursAt(s, pat, j) <==> OccursAt(s[1..], pat, j - 1)) by {
        forall j | 1 <= j ensures OccursAt(s, pat, j) <==> OccursAt(s[1..], pat, j - 1) {
          OccursShift(s, pat, j);
        }
      }
      match rest
      case None => None
      case Some(k) => Some(k + 1)
  }

  lemma OccursShift(s: string, pat: string, j: int)
    requires 1 <= j && s != []
    ensures OccursAt(s, pat, j) <==> OccursAt(s[1..], pat, j - 1)
  {
    if j + |pat| <= |s| {
      var t := s[1..];
      assert forall k :: 0 <= k < |t| ==> t[k] == s[k + 1];
      assert s[j..j + |pat|] == s[1..][j - 1..j - 1 + |pat|];
    }
  }

  /** `s.split(sep)` for a non-empty literal separator. */
  function Split(s: string, sep: string): (parts: seq<string>)
    requires |sep| > 0
    ensures |parts| >= 1
    decreases |s|
  {
    match Find(s, sep)
    case None => [s]
    case Some(i) => [s[..i]] + Split(s[i + |sep|..], sep)
  }

  /** A string without the separator's first character splits into itself. */
  lemma SplitNone(s: string, sep: string)
    requires |sep| > 0 && Lacks(s, sep[0])
    ensures Split(s, sep) == [s]
  {
  }

  /** Splitting stops at the first separator when the part before it cannot start one. */
  lemma SplitFirst(a: string, sep: string, rest: string)
    requires |sep| > 0 && Lacks(a, sep[0])
    ensures Split(a + sep + rest, sep) == [a] + Split(rest, sep)
  {
    var s := a + sep + rest;
    assert OccursAt(s, sep, |a|) by { assert s[|a|..|a| + |sep|] == sep; }
    var f := Find(s, sep);
    assert f == Some(|a|);
    assert s[..|a|] == a;
    assert s[|a| + |sep|..] == rest;
  }

  /** `s.replace(/pat/g, rep)` for a literal, non-empty pattern. */
  function ReplaceAll(s: string, pat: string, rep: string): (r: string)
    requires |pat| > 0
    ensures |rep| <= |pat| ==> |r| <= |s|
    decreases |s|
  {
    if s == [] then []
    else if StartsWith(s, pat) then rep + ReplaceAll(s[|pat|..], pat, rep)
    else [s[0]] + ReplaceAll(s[1..], pat, rep)
  }

  /** A replacement whose pattern cannot start anywhere leaves the string alone. */
  lemma ReplaceAbsent(s: string, pat: string, rep: string)
    requires |pat| > 0 && Lacks(s, pat[0])
    ensures ReplaceAll(s, pat, rep) == s
  {
    if s != [] {
      assert !StartsWith(s, pat) by { if |pat| <= |s| { assert s[..|pat|][0] == s[0]; } }
      ReplaceAbsent(s[1..], pat, rep);
    }
  }

  /** A leading stretch where the pattern cannot start is copied as it is. */
  lemma {:induction false} ReplaceAfterPlain(a: string, rest: string, pat: string, rep: string)
    requires |pat| > 0 && Lacks(a, pat[0])
    ensures ReplaceAll(a + rest, pat, rep) == a + ReplaceAll(rest, pat, rep)
    decreases |a|
  {
    if a != [] {
      var s := a + rest;
      assert !StartsWith(s, pat) by { if |pat| <= |s| { assert s[..|pat|][0] == a[0]; } }
      assert s[1..] == a[1..] + rest;
      ReplaceAfterPlain(a[1..], rest, pat, rep);
    } else {
      assert a + rest == rest;
    }
  }

  /** An occurrence of the pattern at the front is replaced. */
  lemma ReplaceAtFront(rest: string, pat: string, rep: string)
    requires |pat| > 0
    ensures ReplaceAll(pat + rest, pat, rep) == rep + ReplaceAll(rest, pat, rep)
  {
    var s := pat + rest;
    assert s[..|pat|] == pat;
    assert s[|pat|..] == rest;
  }

  /** `s.toLowerCase()` on the ASCII letters. */
  function ToLowerAscii(s: string): (r: string)
    ensures |r| == |s|
    ensures forall i :: 0 <= i < |s| ==> (IsWhitespace(r[i]) <==> IsWhitespace(s[i]))
  {
    seq(|s|, i requires 0 <= i < |s| => if 'A' <= s[i] <= 'Z' then (s[i] as int + 32) as char else s[i])
  }

  /** Lower-casing works character by character. */
  lemma LowerConcat(a: string, b: string)
    ensures ToLowerAscii(a + b) == ToLowerAscii(a) + ToLowerAscii(b)
  {
  }

  /** Lower-casing leaves white space alone. */
  lemma LowerWhitespace(w: string)
    requires forall i :: 0 <= i < |w| ==> IsWhitespace(w[i])
    ensures ToLowerAscii(w) == w
  {
  }

  /** `s.replace(/\s+/g, "-")`: every maximal run of white space becomes one hyphen. */
  function HyphenateWhitespace(s: string): (r: string)
    ensures NoWhitespace(r)
    ensures |r| <= |s|
    decreases |s|
  {
    if s == [] then []
    else if IsWhitespace(s[0]) then
      var t := HyphenateWhitespace(TrimStart(s[1..]));
      ConsNoWhitespace('-', t);
      "-" + t
    else
      var t := HyphenateWhitespace(s[1..]);
      ConsNoWhitespace(s[0], t);
      [s[0]] + t
  }

  lemma ConsNoWhitespace(c: char, t: string)
    requires !IsWhitespace(c) && NoWhitespace(t)
    ensures NoWhitespace([c] + t)
  {
    forall i | 0 <= i < |[c] + t| ensures !IsWhitespace(([c] + t)[i]) {
      if i > 0 { assert ([c] + t)[i] == t[i - 1]; }
    }
  }

  /** `trimStart` drops a leading run of white space and nothing after it. */
  lemma {:induction false} TrimStartRun(w: string, b: string)
    requires forall i :: 0 <= i < |w| ==> IsWhitespace(w[i])
    requires b == [] || !IsWhitespace(b[0])
    ensures TrimStart(w + b) == b
    decreases |w|
  {
    if w == [] {
      assert w + b == b;
      TrimStartKeeps(b);
    } else {
      assert (w + b)[1..] == w[1..] + b;
      TrimStartRun(w[1..], b);
    }
  }

  /** A run of white space between two words becomes a single hyphen. */
  lemma {:induction false} HyphenateRun(a: string, w: string, b: string)
    requires NoWhitespace(a) && NoWhitespace(b) && w != []
    requires forall i :: 0 <= i < |w| ==> IsWhitespace(w[i])
    ensures HyphenateWhitespace(a + w + b) == a + "-" + b
    decreases |a|
  {
    if a == [] {
      assert a + w + b == w + b;
      HyphenateLeadingRun(w, b);
      assert a + "-" + b == "-" + b;
    } else {
      var s := a + w + b;
      assert s[0] == a[0] && s[1..] == a[1..] + w + b by {
        assert s == a + (w + b);
      }
      assert NoWhitespace(a[1..]) by {
        forall i | 0 <= i < |a[1..]| ensures !IsWhitespace(a[1..][i]) {
          assert a[1..][i] == a[i + 1];
        }
      }
      HyphenateRun(a[1..], w, b);
      HyphenateAtPlain(s);
      assert a + "-" + b == [a[0]] + (a[1..] + "-" + b);
    }
  }

  lemma HyphenateAtPlain(s: string)
    requires s != [] && !IsWhitespace(s[0])
    ensures HyphenateWhitespace(s) == [s[0]] + HyphenateWhitespace(s[1..])
  {
  }

  /** A string without white space has nothing to hyphenate. */
  lemma {:induction false} HyphenatePlain(s: string)
    requires NoWhitespace(s)
    ensures HyphenateWhitespace(s) == s
    decreases |s|
  {
    if s != [] {
      HyphenatePlain(s[1..]);
      assert s == [s[0]] + s[1..];
    }
  }

  /** A leading run of white space becomes one hyphen. */
  lemma HyphenateLeadingRun(w: string, b: string)
    requires NoWhitespace(b) && w != []
    requires forall i :: 0 <= i < |w| ==> IsWhitespace(w[i])
    ensures HyphenateWhitespace(w + b) == "-" + b
  {
    TrimAfterFirst(w, b);
    HyphenateAtWhitespace(w + b);
    HyphenatePlain(b);
  }

  /** Past the first white-space character of the run, trimming removes the rest of it. */
  lemma TrimAfterFirst(w: string, b: string)
    requires NoWhitespace(b) && w != []
    requires forall i :: 0 <= i < |w| ==> IsWhitespace(w[i])
    ensures IsWhitespace((w + b)[0]) && TrimStart((w + b)[1..]) == b
  {
    assert (w + b)[0] == w[0];
    assert (w + b)[1..] == w[1..] + b;
    forall i | 0 <= i < |w[1..]| ensures IsWhitespace(w[1..][i]) {
      assert w[1..][i] == w[i + 1];
    }
    TrimStartRun(w[1..], b);
  }

  lemma HyphenateAtWhitespace(s: string)
    requires s != [] && IsWhitespace(s[0])
    ensures HyphenateWhitespace(s) == "-" + HyphenateWhitespace(TrimStart(s[1..]))
  {
  }



  /** `s.slice(1, -1)`. */
  function DropEnds(s: string): (r: string)
    ensures |s| >= 2 ==> r == s[1..|s| - 1]
    ensures |s| < 2 ==> r == []
  {
    if |s| >= 2 then s[1..|s| - 1] else []
  }
}
