/** The string helpers the planner relies on: `str.strip`, ASCII case
    mapping, `parse_bool`, and `fmt_dur_hm` with the decimal rendering of
    its two numbers. */
module Text {
  import opened Wrappers

  /** The characters `str.isspace` (and so the argument-less `str.strip`)
      treats as white space: tab, line feed, vertical tab, form feed,
      carriage return, the information separators U+001C..U+001F, space,
      U+0085, U+00A0, U+1680, U+2000..U+200A, U+2028, U+2029, U+202F,
      U+205F and U+3000 -- the characters of general category Zs or of
      bidirectional class WS, B or S. */
  predicate IsSpace(c: char)
  {
    var n := c as int;
    n == 0x20 || (9 <= n <= 13) || (28 <= n <= 31) || n == 0x85 || n == 0xA0 || n == 0x1680 ||
    (0x2000 <= n <= 0x200A) || n == 0x2028 || n == 0x2029 || n == 0x202F || n == 0x205F || n == 0x3000
  }

  ghost predicate AllSpace(s: string)
  {
    forall k :: 0 <= k < |s| ==> IsSpace(s[k])
  }

  /** `s` without its leading white space. */
  function TrimStart(s: string): (r: string)
    ensures |r| <= |s| && r == s[|s| - |r|..]
    ensures AllSpace(s[..|s| - |r|])
    ensures |r| > 0 ==> !IsSpace(r[0])
  {
    if |s| > 0 && IsSpace(s[0]) then
      var r := TrimStart(s[1..]);
      assert s[1..][..|s[1..]| - |r|] == s[1..|s| - |r|];
      r
    else s
  }

  /** `s` without its trailing white space. */
  function TrimEnd(s: string): (r: string)
    ensures |r| <= |s| && r == s[..|r|]
    ensures AllSpace(s[|r|..])
    ensures |r| > 0 ==> !IsSpace(r[|r| - 1])
  {
    if |s| > 0 && IsSpace(s[|s| - 1]) then
      var r := TrimEnd(s[..|s| - 1]);
      assert s[..|s| - 1][|r|..] == s[|r|..|s| - 1];
      r
    else s
  }

  /** `str.strip()`: the longest infix between white space on both sides
      that neither starts nor ends with white space. */
  function Strip(s: string): (r: string)
  {
    TrimEnd(TrimStart(s))
  }

  /** Stripping keeps exactly the middle of a string padded with white
      space on both sides, when the middle has no white space at its ends. */
  lemma StripPadded(p: string, u: string, q: string)
    requires AllSpace(p) && AllSpace(q)
    requires |u| > 0 ==> !IsSpace(u[0]) && !IsSpace(u[|u| - 1])
    ensures Strip(p + u + q) == u
  {
    assert p + u + q == p + (u + q);
    if |u| > 0 {
      assert (u + q)[0] == u[0];
      StripStartPadded(p, u + q, true);
      StripEndPadded(u, q);
    } else {
      assert u + q == q;
      StripStartPadded(p, q, false);
      assert TrimEnd([]) == [];
    }
  }

  lemma {:induction false} StripStartPadded(p: string, v: string, solid: bool)
    requires AllSpace(p)
    requires solid ==> |v| > 0 && !IsSpace(v[0])
    requires !solid ==> AllSpace(v)
    ensures TrimStart(p + v) == if solid then v else []
    decreases |p| + |v|
  {
    if |p| > 0 {
      assert (p + v)[1..] == p[1..] + v;
      StripStartPadded(p[1..], v, solid);
    } else if !solid && |v| > 0 {
      assert p + v == v;
      assert v[1..] == [] + v[1..];
      StripStartPadded([], v[1..], false);
    } else {
      assert p + v == v;
    }
  }

  lemma {:induction false} StripEndPadded(u: string, q: string)
    requires AllSpace(q)
    requires |u| > 0 ==> !IsSpace(u[|u| - 1])
    ensures TrimEnd(u + q) == u
    decreases |q|
  {
    if |q| > 0 {
      assert (u + q)[..|u + q| - 1] == u + q[..|q| - 1];
      StripEndPadded(u, q[..|q| - 1]);
    } else {
      assert u + q == u;
      if |u| == 0 {
        assert TrimEnd(u) == [];
      }
    }
  }

  /** ASCII `str.lower()` for one character. */
  function LowerChar(c: char): char
  {
    if 'A' <= c <= 'Z' then (c as int + 32) as char else c
  }

  /** ASCII `str.upper()` for one character. */
  function UpperChar(c: char): char
  {
    if 'a' <= c <= 'z' then (c as int - 32) as char else c
  }

  function Lower(s: string): (r: string)
    ensures |r| == |s| && forall k :: 0 <= k < |s| ==> r[k] == LowerChar(s[k])
  {
    if |s| == 0 then [] else [LowerChar(s[0])] + Lower(s[1..])
  }

  function Upper(s: string): (r: string)
    ensures |r| == |s| && forall k :: 0 <= k < |s| ==> r[k] == UpperChar(s[k])
  {
    if |s| == 0 then [] else [UpperChar(s[0])] + Upper(s[1..])
  }

  /** Case mapping changes letters only, so it commutes with white space. */
  lemma CaseKeepsSpace(c: char)
    ensures IsSpace(LowerChar(c)) <==> IsSpace(c)
    ensures IsSpace(UpperChar(c)) <==> IsSpace(c)
  {
  }

  /** The words `parse_bool` reads as true. */
  predicate TrueWord(v: string)
  {
    v == "1" || v == "true" || v == "yes" || v == "y" || v == "on"
  }

  /** `parse_bool`: a missing value gives the default; any present value is
      true exactly when it is one of the true words after stripping and
      lower-casing, whatever the default. */
  function ParseBool(value: Option<string>, default: bool): bool
  {
    match value
    case None => default
    case Some(v) => TrueWord(Lower(Strip(v)))
  }

  /** A true word in any letter case, padded with white space on both
      sides, reads as true; and a present value never falls back to the
      default. */
  lemma ParseBoolReading(p: string, u: string, q: string, default: bool)
    requires AllSpace(p) && AllSpace(q)
    requires TrueWord(Lower(u))
    ensures ParseBool(Some(p + u + q), default)
    ensures ParseBool(Some(p + u + q), default) == ParseBool(Some(p + u + q), !default)
  {
    var l := Lower(u);
    assert l[0] == LowerChar(u[0]) && l[|u| - 1] == LowerChar(u[|u| - 1]);
    assert !IsSpace(l[0]) && !IsSpace(l[|l| - 1]);
    CaseKeepsSpace(u[0]);
    CaseKeepsSpace(u[|u| - 1]);
    StripPadded(p, u, q);
  }

  /** Every string is its white-space prefix followed by `TrimStart`. */
  lemma TrimStartParts(v: string) returns (p: string)
    ensures v == p + TrimStart(v) && AllSpace(p)
  {
    p := v[..|v| - |TrimStart(v)|];
    SplitAt(v, |v| - |TrimStart(v)|);
  }

  /** Every string is `TrimEnd` followed by its white-space suffix. */
  lemma TrimEndParts(t: string) returns (q: string)
    ensures t == TrimEnd(t) + q && AllSpace(q)
  {
    q := t[|TrimEnd(t)|..];
    SplitAt(t, |TrimEnd(t)|);
  }

  lemma SplitAt(s: string, k: nat)
    requires k <= |s|
    ensures s == s[..k] + s[k..]
  {
  }

  /** Every string is its stripped middle between white space on both
      sides. */
  lemma StripParts(v: string) returns (p: string, q: string)
    ensures v == p + Strip(v) + q
    ensures AllSpace(p) && AllSpace(q)
  {
    p := TrimStartParts(v);
    q := TrimEndParts(TrimStart(v));
    ConcatAssoc(p, Strip(v), q);
  }

  lemma ConcatAssoc(a: string, b: string, c: string)
    ensures a + (b + c) == a + b + c
  {
  }

  /** Conversely, a value reads as true only when it is a true word in
      some letter case between white space on both sides. */
  lemma ParseBoolTrueWord(v: string, default: bool)
    requires ParseBool(Some(v), default)
    ensures exists p, u, q :: v == p + u + q && AllSpace(p) && AllSpace(q) && TrueWord(Lower(u))
  {
    var p, q := StripParts(v);
    var u := Strip(v);
    assert TrueWord(Lower(u));
    assert v == p + u + q && AllSpace(p) && AllSpace(q);
  }

  /** A true word read with white space around it: a non-breaking space
      U+00A0 before `true` is stripped like any other white space. */
  lemma NoBreakSpaceTrue()
    ensures ParseBool(Some([0xA0 as char] + "true"), false)
  {
    ParseBoolReading([0xA0 as char], "true", [], false);
    assert [0xA0 as char] + "true" + [] == [0xA0 as char] + "true";
  }

  /** The decimal digit for `d < 10`. */
  function DigitChar(d: nat): char
    requires d < 10
  {
    ('0' as int + d) as char
  }

  predicate IsDigit(c: char)
  {
    '0' <= c <= '9'
  }

  /** `str(n)` for a natural number. */
  function Decimal(n: nat): (s: string)
    ensures |s| > 0 && forall k :: 0 <= k < |s| ==> IsDigit(s[k])
  {
    if n < 10 then [DigitChar(n)] else Decimal(n / 10) + [DigitChar(n % 10)]
  }

  /** The value of a string of decimal digits. */
  function DecimalValue(s: string): nat
    requires forall k :: 0 <= k < |s| ==> IsDigit(s[k])
  {
    if |s| == 0 then 0
    else
      assert IsDigit(s[|s| - 1]);
      DecimalValue(s[..|s| - 1]) * 10 + (s[|s| - 1] as int - '0' as int)
  }

  lemma {:induction false} DecimalRoundTrip(n: nat)
    ensures DecimalValue(Decimal(n)) == n
  {
    if n >= 10 {
      var s := Decimal(n);
      assert s[..|s| - 1] == Decimal(n / 10);
      DecimalRoundTrip(n / 10);
    }
  }

  /** `fmt_dur_hm` on the already rounded minutes `m`: floor division by 60
      into hours and the remainder, shown as `"{h}h {r}min"` when there is
      at least one hour and as `"{r}min"` otherwise. */
  function FmtDurHm(m: int): string
  {
    var h := m / 60;
    var r := m % 60;
    if h > 0 then Decimal(h) + "h " + Decimal(r) + "min" else Decimal(r) + "min"
  }

  /** What `fmt_dur_hm` shows for the minutes `m = h*60 + r` with
      `0 <= r < 60` (Python's `divmod(m, 60)`): `"{h}h {r}min"` when there
      is at least one hour, `"{r}min"` otherwise. */
  lemma SplitHm(m: int, h: int, r: int)
    requires h * 60 + r == m && 0 <= r < 60
    ensures FmtDurHm(m) == if h > 0 then Decimal(h) + "h " + Decimal(r) + "min" else Decimal(r) + "min"
  {
    assert m / 60 == h && m % 60 == r by {
      var h' := m / 60;
      var r' := m % 60;
      assert h' * 60 + r' == m;
      assert (h - h') * 60 == r' - r;
    }
  }

  /** A negative duration shows only its non-negative remainder. */
  lemma FmtDurHmNegative(m: int)
    requires m < 0
    ensures FmtDurHm(m) == FmtDurHm(m % 60)
  {
  }

  /** Reads back what `FmtDurHm` writes: `"{h}h {r}min"` or `"{r}min"`. */
  function ParseDurHm(s: string): Option<int>
  {
    if |s| < 3 || s[|s| - 3..] != "min" then None
    else
      var body := s[..|s| - 3];
      if forall k :: 0 <= k < |body| ==> IsDigit(body[k]) then
        if |body| == 0 then None else Some(DecimalValue(body))
      else HoursMinutes(body, 0)
  }

  /** `"{h}h {r}"` with the `h` searched from position `i` on. */
  function HoursMinutes(body: string, i: nat): Option<int>
    decreases |body| - i
  {
    if i >= |body| then None
    else if body[i] == 'h' then
      var hs := body[..i];
      var rs := body[i + 1..];
      if 0 < |hs| && (forall k :: 0 <= k < |hs| ==> IsDigit(hs[k])) &&
         1 < |rs| && rs[0] == ' ' && (forall k :: 1 <= k < |rs| ==> IsDigit(rs[k]))
      then Some(DecimalValue(hs) * 60 + DecimalValue(rs[1..]))
      else None
    else HoursMinutes(body, i + 1)
  }

  lemma {:induction false} HoursMinutesFinds(hs: string, rs: string, i: nat)
    requires 0 < |hs| && forall k :: 0 <= k < |hs| ==> IsDigit(hs[k])
    requires 0 < |rs| && forall k :: 0 <= k < |rs| ==> IsDigit(rs[k])
    requires i <= |hs|
    ensures HoursMinutes(hs + "h " + rs, i) == Some(DecimalValue(hs) * 60 + DecimalValue(rs))
    decreases |hs| - i
  {
    var body := hs + "h " + rs;
    if i < |hs| {
      assert body[i] == hs[i];
      HoursMinutesFinds(hs, rs, i + 1);
    } else {
      assert body[i] == 'h';
      assert body[..i] == hs;
      assert body[i + 1..] == " " + rs;
      assert body[i + 1..][1..] == rs;
    }
  }

  /** Formatting the minutes of a non-negative duration and reading them
      back gives the same minutes. */
  lemma FmtDurHmRoundTrip(m: int)
    requires m >= 0
    ensures ParseDurHm(FmtDurHm(m)) == Some(m)
  {
    var h := m / 60;
    var r := m % 60;
    var s := FmtDurHm(m);
    DecimalRoundTrip(r);
    if h > 0 {
      var hs := Decimal(h);
      var rs := Decimal(r);
      assert s == (hs + "h " + rs) + "min";
      assert s[..|s| - 3] == hs + "h " + rs;
      assert s[|s| - 3..] == "min";
      var body := hs + "h " + rs;
      assert body[|hs|] == 'h' && !IsDigit(body[|hs|]);
      HoursMinutesFinds(hs, rs, 0);
      DecimalRoundTrip(h);
    } else {
      assert s == Decimal(r) + "min";
      assert s[..|s| - 3] == Decimal(r);
      assert s[|s| - 3..] == "min";
    }
  }
}
