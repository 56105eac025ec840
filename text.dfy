/**
  The JavaScript string operations the pages rely on: `trim`, `toLowerCase`,
  `includes`, `split(",")`, `join(", ")` and `parseInt`. Characters are
  Unicode scalar values; the whitespace set is the one `trim` strips except
  for the Unicode space separators of category Zs beyond U+00A0, and lower
  casing covers the ASCII letters only.
 */
module Text {
  import opened Wrappers

  /** A character `String.prototype.trim` removes. */
  predicate IsSpace(c: char) {
    c == ' ' || c == '\t' || c == '\n' || c == '\r' || c == '\U{000B}' || c == '\U{000C}'
    || c == '\U{00A0}' || c == '\U{FEFF}' || c == '\U{2028}' || c == '\U{2029}'
  }

  /** `s.trim()` is the empty string. */
  predicate IsBlank(s: string) {
    forall i :: 0 <= i < |s| ==> IsSpace(s[i])
  }

  /** `r` is `s` with a blank prefix and a blank suffix removed. */
  predicate IsInnerSlice(s: string, r: string) {
    exists i, j :: 0 <= i <= j <= |s| && r == s[i..j] && IsBlank(s[..i]) && IsBlank(s[j..])
  }

  /** Removing one more leading space keeps `r` an inner slice. */
  lemma InnerSliceOfTail(s: string, r: string)
    requires |s| > 0 && IsSpace(s[0]) && IsInnerSlice(s[1..], r)
    ensures IsInnerSlice(s, r)
  {
    var tail := s[1..];
    var i, j :| 0 <= i <= j <= |tail| && r == tail[i..j] && IsBlank(tail[..i]) && IsBlank(tail[j..]);
    assert r == s[i + 1..j + 1];
    var blank := s[..i + 1];
    assert IsBlank(blank) by {
      forall k | 0 <= k < |blank| ensures IsSpace(blank[k]) {
        if k > 0 {
          assert blank[k] == tail[..i][k - 1];
        }
      }
    }
    assert s[j + 1..] == tail[j..];
  }

  /** Removing one more trailing space keeps `r` an inner slice. */
  lemma InnerSliceOfFront(s: string, r: string)
    requires |s| > 0 && IsSpace(s[|s| - 1]) && IsInnerSlice(s[..|s| - 1], r)
    ensures IsInnerSlice(s, r)
  {
    var front := s[..|s| - 1];
    var i, j :| 0 <= i <= j <= |front| && r == front[i..j] && IsBlank(front[..i]) && IsBlank(front[j..]);
    assert r == s[i..j];
    assert s[..i] == front[..i];
    assert s[j..] == front[j..] + [s[|s| - 1]];
  }

  /** `s.trim()`: `s` without its leading and trailing whitespace. */
  function Trim(s: string): (r: string)
    ensures r == [] <==> IsBlank(s)
    ensures r != [] ==> !IsSpace(r[0]) && !IsSpace(r[|r| - 1])
    ensures forall c :: c in r ==> c in s
    ensures IsInnerSlice(s, r)
    decreases |s|
  {
    if |s| > 0 && IsSpace(s[0]) then
      var r := Trim(s[1..]);
      InnerSliceOfTail(s, r);
      r
    else if |s| > 0 && IsSpace(s[|s| - 1]) then
      var r := Trim(s[..|s| - 1]);
      InnerSliceOfFront(s, r);
      r
    else
      assert s == s[0..|s|] && s[..0] == [] && s[|s|..] == [];
      s
  }

  /** A string with nothing to trim is its own trimmed form. */
  lemma TrimTrimmed(s: string)
    requires s != [] ==> !IsSpace(s[0]) && !IsSpace(s[|s| - 1])
    ensures Trim(s) == s
  {
  }

  /** Leading whitespace: the first step of `parseInt`. */
  function TrimStart(s: string): (r: string)
    ensures r != [] ==> !IsSpace(r[0])
    ensures |r| <= |s| && r == s[|s| - |r|..]
  {
    if |s| > 0 && IsSpace(s[0]) then TrimStart(s[1..]) else s
  }

  /** `toLowerCase` on one character (ASCII letters only). */
  function LowerChar(c: char): (d: char)
    ensures 'A' <= c <= 'Z' ==> d as int == c as int + 32
    ensures !('A' <= c <= 'Z') ==> d == c
  {
    if 'A' <= c <= 'Z' then (c as int + 32) as char else c
  }

  /** `s.toLowerCase()`. */
  function Lower(s: string): (r: string)
    ensures |r| == |s|
    ensures forall i :: 0 <= i < |s| ==> r[i] == LowerChar(s[i])
  {
    seq(|s|, i requires 0 <= i < |s| => LowerChar(s[i]))
  }

  /** `needle` occurs in `hay` starting at position `i`. */
  predicate OccursAt(hay: string, needle: string, i: int) {
    0 <= i && i + |needle| <= |hay| && hay[i..i + |needle|] == needle
  }

  /** `hay.includes(needle)`. */
  predicate Contains(hay: string, needle: string) {
    exists i :: 0 <= i <= |hay| - |needle| && OccursAt(hay, needle, i)
  }

  /** `s.split(",")`: the pieces between commas, including empty ones. */
  function Split(s: string): (r: seq<string>)
    ensures |r| >= 1
    ensures forall p :: p in r ==> ',' !in p
    ensures forall p, c :: p in r && c in p ==> c in s
  {
    if s == [] then [""]
    else if s[0] == ',' then [""] + Split(s[1..])
    else
      var rest := Split(s[1..]);
      [[s[0]] + rest[0]] + rest[1..]
  }

  /** `xs.join(sep)`. */
  function Join(xs: seq<string>, sep: string): (r: string)
    ensures xs == [] ==> r == ""
    ensures |xs| == 1 ==> r == xs[0]
    ensures forall c :: c in r ==> c in sep || exists x :: x in xs && c in x
  {
    if |xs| == 0 then "" else if |xs| == 1 then xs[0] else xs[0] + sep + Join(xs[1..], sep)
  }

  /** Splitting at a comma splits the two sides independently. */
  lemma {:induction false} SplitAppend(a: string, b: string)
    ensures Split(a + [','] + b) == Split(a) + Split(b)
  {
    var s := a + [','] + b;
    if a == [] {
      assert s == [','] + b;
      assert s[1..] == b;
    } else {
      assert s[0] == a[0];
      assert s[1..] == a[1..] + [','] + b;
      SplitAppend(a[1..], b);
    }
  }

  /** A leading character other than a comma joins the first piece. */
  lemma SplitCons(c: char, s: string)
    requires c != ','
    ensures Split([c] + s) == [[c] + Split(s)[0]] + Split(s)[1..]
  {
    assert ([c] + s)[1..] == s;
  }

  /** A comma-free string is a single piece. */
  lemma {:induction false} SplitNoComma(s: string)
    requires ',' !in s
    ensures Split(s) == [s]
  {
    if s != [] {
      SplitNoComma(s[1..]);
      assert [s[0]] + s[1..] == s;
    }
  }

  /** A character of a `parseInt` digit string in radix `radix` (10 or 16). */
  predicate IsDigitIn(c: char, radix: nat) {
    ('0' <= c <= '9') || (radix == 16 && (('a' <= c <= 'f') || ('A' <= c <= 'F')))
  }

  function DigitValue(c: char): (v: nat)
    ensures '0' <= c <= '9' ==> v == c as int - '0' as int
  {
    if '0' <= c <= '9' then c as int - '0' as int
    else if 'a' <= c <= 'f' then c as int - 'a' as int + 10
    else if 'A' <= c <= 'F' then c as int - 'A' as int + 10
    else 0
  }

  /** The longest prefix of `s` made of digits of the radix. */
  function DigitPrefix(s: string, radix: nat): (r: string)
    ensures |r| <= |s| && r == s[..|r|]
    ensures forall i :: 0 <= i < |r| ==> IsDigitIn(r[i], radix)
    ensures |r| < |s| ==> !IsDigitIn(s[|r|], radix)
  {
    if s != [] && IsDigitIn(s[0], radix) then [s[0]] + DigitPrefix(s[1..], radix) else []
  }

  /** A string of digits is read in full. */
  lemma {:induction false} DigitPrefixAll(s: string, radix: nat)
    requires forall i :: 0 <= i < |s| ==> IsDigitIn(s[i], radix)
    ensures DigitPrefix(s, radix) == s
  {
    if s != [] {
      DigitPrefixAll(s[1..], radix);
      assert [s[0]] + s[1..] == s;
    }
  }

  /** The number a digit string denotes, most significant digit first. */
  function DigitsValue(ds: string, radix: nat): nat {
    if ds == [] then 0 else DigitsValue(ds[..|ds| - 1], radix) * radix + DigitValue(ds[|ds| - 1])
  }

  /**
    The digits of `parseInt` after the sign: radix 16 after a `0x`/`0X`
    prefix, radix 10 otherwise, and the longest run of digits of that radix;
    no digits at all is `NaN`, here `None`.
   */
  function ParseMagnitude(u: string): Option<nat> {
    var hex := |u| >= 2 && u[0] == '0' && (u[1] == 'x' || u[1] == 'X');
    var digits := if hex then DigitPrefix(u[2..], 16) else DigitPrefix(u, 10);
    if digits == [] then None
    else Some(DigitsValue(digits, if hex then 16 else 10))
  }

  /**
    `parseInt(s)` with no radix argument: skip leading whitespace, take an
    optional sign, then read the magnitude.
   */
  function ParseInt(s: string): (r: Option<int>)
    ensures IsBlank(s) ==> r.None?
    ensures r.Some? && r.value < 0 ==> TrimStart(s) != [] && TrimStart(s)[0] == '-'
  {
    var t := TrimStart(s);
    var negative := t != [] && t[0] == '-';
    var unsigned := if t != [] && (t[0] == '-' || t[0] == '+') then t[1..] else t;
    match ParseMagnitude(unsigned)
    case None => None
    case Some(m) => Some(if negative then -(m as int) else m as int)
  }

  /** The decimal numeral of `n`, the text a user types into a salary field. */
  function DecimalString(n: nat): (r: string)
    ensures r != []
    ensures forall i :: 0 <= i < |r| ==> '0' <= r[i] <= '9'
    ensures |r| >= 2 ==> r[0] != '0'
  {
    if n < 10 then [('0' as int + n) as char]
    else DecimalString(n / 10) + [('0' as int + n % 10) as char]
  }

  lemma {:induction false} DecimalStringValue(n: nat)
    ensures DigitsValue(DecimalString(n), 10) == n
  {
    var r := DecimalString(n);
    if n >= 10 {
      DecimalStringValue(n / 10);
      assert r[..|r| - 1] == DecimalString(n / 10);
    }
  }

  /** An unsigned decimal numeral without a `0x` prefix is read as a whole. */
  lemma ParseIntDigits(r: string)
    requires r != [] && forall i :: 0 <= i < |r| ==> '0' <= r[i] <= '9'
    requires |r| >= 2 ==> r[0] != '0'
    ensures ParseInt(r) == Some(DigitsValue(r, 10))
  {
    assert !IsSpace(r[0]) && r[0] != '-' && r[0] != '+';
    assert TrimStart(r) == r;
    MagnitudeDigits(r);
  }

  /** The magnitude of a decimal numeral without a `0x` prefix is its value. */
  lemma MagnitudeDigits(r: string)
    requires r != [] && forall i :: 0 <= i < |r| ==> '0' <= r[i] <= '9'
    requires |r| >= 2 ==> r[0] != '0'
    ensures ParseMagnitude(r) == Some(DigitsValue(r, 10))
  {
    assert |r| >= 2 ==> r[1] != 'x' && r[1] != 'X';
    assert forall i :: 0 <= i < |r| ==> IsDigitIn(r[i], 10);
    DigitPrefixAll(r, 10);
  }

  /** A decimal numeral parses back to the number it spells. */
  lemma ParseIntDecimal(n: nat)
    ensures ParseInt(DecimalString(n)) == Some(n)
  {
    ParseIntDigits(DecimalString(n));
    DecimalStringValue(n);
  }
}
