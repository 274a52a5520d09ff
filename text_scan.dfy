/**
 * The string tests and the left-to-right scanning steps the response parser
 * is built from: substring search, ASCII lower-casing, and the pieces the two
 * regular expressions of the parser are made of (`\s*`, literals, `\d+`).
 * Each step takes the unread rest of the text and returns what is left.
 */
module TextScan {
  import opened Wrappers
  import opened Decimal

  /** `str.lower()` on one character, for the ASCII letters. */
  function Lower(c: char): char {
    if 'A' <= c <= 'Z' then (c as int + 32) as char else c
  }

  function LowerAll(s: string): string {
    seq(|s|, i requires 0 <= i < |s| => Lower(s[i]))
  }

  predicate StartsWith(s: string, p: string) {
    |p| <= |s| && s[..|p|] == p
  }

  /** `p in s` for strings. */
  predicate Contains(s: string, p: string)
    decreases |s|
  {
    StartsWith(s, p) || (s != [] && Contains(s[1..], p))
  }

  ghost predicate OccursAt(s: string, p: string, i: int) {
    0 <= i && i + |p| <= |s| && s[i..i + |p|] == p
  }

  /** The scan agrees with the definition "`p` occurs at some position of `s`". */
  lemma {:induction false} ContainsIffOccurs(s: string, p: string)
    ensures Contains(s, p) <==> exists i :: OccursAt(s, p, i)
    decreases |s|
  {
    if StartsWith(s, p) {
      assert OccursAt(s, p, 0);
    } else if s != [] {
      ContainsIffOccurs(s[1..], p);
      forall i | OccursAt(s, p, i)
        ensures i == 0 || OccursAt(s[1..], p, i - 1)
      {
        if i != 0 {
          assert s[i..i + |p|] == s[1..][i - 1..i - 1 + |p|];
        }
      }
      if Contains(s[1..], p) {
        var i :| OccursAt(s[1..], p, i);
        assert s[i + 1..i + 1 + |p|] == s[1..][i..i + |p|];
        assert OccursAt(s, p, i + 1);
      }
    }
  }

  /** Lower-casing commutes with taking a slice. */
  lemma LowerAllSlice(s: string, i: int, j: int)
    requires 0 <= i <= j <= |s|
    ensures LowerAll(s)[i..j] == LowerAll(s[i..j])
  {
  }

  /** A text that holds `t` somewhere holds its lower-cased form after lower-casing. */
  lemma LowerAllKeepsOccurrence(a: string, t: string, b: string)
    ensures Contains(LowerAll(a + t + b), LowerAll(t))
  {
    var s := a + t + b;
    assert s[|a|..|a| + |t|] == t;
    LowerAllSlice(s, |a|, |a| + |t|);
    assert OccursAt(LowerAll(s), LowerAll(t), |a|);
    ContainsIffOccurs(LowerAll(s), LowerAll(t));
  }

  /** `\s` in a Python `str` pattern: the characters `str.isspace()` accepts. */
  predicate IsSpace(c: char) {
    var k := c as int;
    k == 32 || 9 <= k <= 13 || 28 <= k <= 31 || k == 0x85 || k == 0xA0 || k == 0x1680
    || 0x2000 <= k <= 0x200A || k == 0x2028 || k == 0x2029 || k == 0x202F || k == 0x205F
    || k == 0x3000
  }

  /** `\s*`: the rest after the longest run of leading white space. */
  function SkipSpace(t: string): (r: string)
    ensures |r| <= |t|
    ensures r == [] || !IsSpace(r[0])
    decreases |t|
  {
    if t != [] && IsSpace(t[0]) then SkipSpace(t[1..]) else t
  }

  /** A literal: the rest after `lit`, if the text starts with it. */
  function Expect(t: string, lit: string): (r: Option<string>)
    ensures r.Some? <==> StartsWith(t, lit)
    ensures r.Some? ==> r.value == t[|lit|..]
  {
    if StartsWith(t, lit) then Some(t[|lit|..]) else None
  }

  /** A literal under `re.IGNORECASE` (ASCII letters only); `lit` is written in lower case. */
  function ExpectFolded(t: string, lit: string): (r: Option<string>)
    ensures r.Some? ==> |lit| <= |t| && r.value == t[|lit|..]
  {
    if |lit| <= |t| && LowerAll(t[..|lit|]) == lit then Some(t[|lit|..]) else None
  }

  /** A one-character class such as `[:=]`. */
  function OneOf(t: string, chars: set<char>): (r: Option<string>)
    ensures r.Some? <==> t != [] && t[0] in chars
    ensures r.Some? ==> r.value == t[1..]
  {
    if t != [] && t[0] in chars then Some(t[1..]) else None
  }

  /** The length of the longest run of leading digits. */
  function DigitRun(t: string): (n: nat)
    ensures n <= |t| && AllDigits(t[..n])
    ensures n < |t| ==> !IsDigit(t[n])
    decreases |t|
  {
    if t != [] && IsDigit(t[0]) then 1 + DigitRun(t[1..]) else 0
  }

  /** `(\d+)` read with `int()`: the value of the longest leading run of digits, and the rest. */
  function Digits(t: string): (r: Option<(nat, string)>)
    ensures r.Some? <==> t != [] && IsDigit(t[0])
    ensures r.Some? ==> |r.value.1| < |t|
    ensures r.Some? ==> r.value.1 == [] || !IsDigit(r.value.1[0])
  {
    var n := DigitRun(t);
    if n == 0 then None else Some((DigitsValue(t[..n]), t[n..]))
  }

  /** The digits of `ShowNat(n)`, followed by anything but a digit, read back as `n`. */
  lemma DigitsOfShowNat(n: nat, rest: string)
    requires rest == [] || !IsDigit(rest[0])
    ensures Digits(ShowNat(n) + rest) == Some((n, rest))
  {
    var s := ShowNat(n);
    DigitRunOfDigits(s, rest);
    assert (s + rest)[..|s|] == s;
    assert (s + rest)[|s|..] == rest;
    ReadShowNat(n);
  }

  lemma {:induction false} DigitRunOfDigits(s: string, rest: string)
    requires AllDigits(s)
    requires rest == [] || !IsDigit(rest[0])
    ensures DigitRun(s + rest) == |s|
    decreases |s|
  {
    if s != [] {
      assert (s + rest)[1..] == s[1..] + rest;
      DigitRunOfDigits(s[1..], rest);
    } else {
      assert s + rest == rest;
    }
  }

  /** The first position of `c`, if any. */
  function IndexOf(s: string, c: char): (r: Option<nat>)
    ensures r.Some? ==> r.value < |s| && s[r.value] == c && forall k :: 0 <= k < r.value ==> s[k] != c
    ensures r.None? ==> forall k :: 0 <= k < |s| ==> s[k] != c
    decreases |s|
  {
    if s == [] then None
    else if s[0] == c then Some(0)
    else match IndexOf(s[1..], c)
      case None => None
      case Some(k) => Some(k + 1)
  }

  /** The last position of `c`, if any. */
  function LastIndexOf(s: string, c: char): (r: Option<nat>)
    ensures r.Some? ==> r.value < |s| && s[r.value] == c && forall k :: r.value < k < |s| ==> s[k] != c
    ensures r.None? ==> forall k :: 0 <= k < |s| ==> s[k] != c
    decreases |s|
  {
    if s == [] then None
    else if s[|s| - 1] == c then Some(|s| - 1)
    else LastIndexOf(s[..|s| - 1], c)
  }

  /**
   * `re.search(r'\{[\s\S]*\}', s)`: the text from the first `{` to the last `}`
   * when some `}` follows the first `{`; otherwise no match.
   */
  function OutermostBraces(s: string): (r: Option<string>)
    ensures r.Some? <==> exists i, j :: 0 <= i < j < |s| && s[i] == '{' && s[j] == '}'
    ensures r.Some? ==> exists i {:trigger s[i]} ::
      && 0 <= i < |s| && i + |r.value| <= |s| && s[i] == '{' && s[i..i + |r.value|] == r.value
      && (forall k :: 0 <= k < i ==> s[k] != '{')
      && (forall k :: i + |r.value| <= k < |s| ==> s[k] != '}')
    ensures r.Some? ==> 2 <= |r.value| && r.value[0] == '{' && r.value[|r.value| - 1] == '}'
  {
    match IndexOf(s, '{')
    case None => None
    case Some(i) =>
      match LastIndexOf(s, '}')
      case None => None
      case Some(j) => if i < j then Some(s[i..j + 1]) else None
  }
}
