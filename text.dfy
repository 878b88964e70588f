// String helpers with the meaning of the Python string operations the
// repository uses: `str.lower`, `in` on strings, `startswith`/`endswith`,
// `strip`, `join`, slicing, and the decimal renderings that f-strings and
// `repr` produce for the numbers that occur in this system.
module Text {
  /** `str.lower()` restricted to ASCII letters. */
  function LowerChar(c: char): char {
    if 'A' <= c <= 'Z' then (c as int + 32) as char else c
  }

  function Lower(s: string): (r: string)
    ensures |r| == |s|
    ensures forall i :: 0 <= i < |s| ==> r[i] == LowerChar(s[i])
  {
    if s == [] then [] else [LowerChar(s[0])] + Lower(s[1..])
  }

  /** `str.upper()` restricted to ASCII letters. */
  function UpperChar(c: char): char {
    if 'a' <= c <= 'z' then (c as int - 32) as char else c
  }

  function Upper(s: string): (r: string)
    ensures |r| == |s|
    ensures forall i :: 0 <= i < |s| ==> r[i] == UpperChar(s[i])
  {
    if s == [] then [] else [UpperChar(s[0])] + Upper(s[1..])
  }

  predicate StartsWith(s: string, prefix: string) {
    |prefix| <= |s| && s[..|prefix|] == prefix
  }

  predicate EndsWith(s: string, suffix: string) {
    |suffix| <= |s| && s[|s| - |suffix|..] == suffix
  }

  /** Python's `sub in s` for strings. */
  predicate Contains(s: string, sub: string)
    decreases |s|
  {
    StartsWith(s, sub) || (|s| > 0 && Contains(s[1..], sub))
  }

  lemma {:induction false} ContainsAt(s: string, sub: string, i: nat)
    requires i + |sub| <= |s| && s[i..i + |sub|] == sub
    ensures Contains(s, sub)
    decreases i
  {
    if i == 0 {
      assert s[..|sub|] == sub;
    } else {
      assert s[1..][i - 1..i - 1 + |sub|] == s[i..i + |sub|];
      ContainsAt(s[1..], sub, i - 1);
    }
  }

  /** `sub` occurs in `s` starting at index `i`. */
  predicate OccursAt(s: string, sub: string, i: nat) {
    i + |sub| <= |s| && s[i..i + |sub|] == sub
  }

  /** A string that contains `sub` holds it at some position. */
  lemma {:induction false} ContainsIndex(s: string, sub: string)
    requires Contains(s, sub)
    ensures exists i: nat :: OccursAt(s, sub, i)
    decreases |s|
  {
    if StartsWith(s, sub) {
      assert OccursAt(s, sub, 0);
    } else {
      ContainsIndex(s[1..], sub);
      var i: nat :| OccursAt(s[1..], sub, i);
      assert s[i + 1..i + 1 + |sub|] == s[1..][i..i + |sub|];
      assert OccursAt(s, sub, i + 1);
    }
  }

  /** Text around a string keeps every substring it had. */
  lemma ContainsExtend(s: string, t: string, sub: string)
    requires Contains(s, sub)
    ensures Contains(s + t, sub) && Contains(t + s, sub)
  {
    ContainsIndex(s, sub);
    var i: nat :| OccursAt(s, sub, i);
    assert (s + t)[i..i + |sub|] == s[i..i + |sub|];
    ContainsAt(s + t, sub, i);
    assert (t + s)[|t| + i..|t| + i + |sub|] == s[i..i + |sub|];
    ContainsAt(t + s, sub, |t| + i);
  }

  /** `any(word in s for word in words)`. */
  predicate ContainsAny(s: string, words: seq<string>) {
    exists w :: w in words && Contains(s, w)
  }

  lemma ContainsAnyExtend(s: string, t: string, words: seq<string>)
    requires ContainsAny(s, words)
    ensures ContainsAny(s + t, words) && ContainsAny(t + s, words)
  {
    var w :| w in words && Contains(s, w);
    ContainsExtend(s, t, w);
  }

  /** Lower-casing works character by character, so it distributes over concatenation. */
  lemma LowerConcat(a: string, b: string)
    ensures Lower(a + b) == Lower(a) + Lower(b)
  {
    assert forall i :: 0 <= i < |a + b| ==> Lower(a + b)[i] == (Lower(a) + Lower(b))[i];
  }

  /** Lower-casing after upper-casing is lower-casing: the ASCII letters map back. */
  lemma LowerUpper(s: string)
    ensures Lower(Upper(s)) == Lower(s)
  {
    assert forall i :: 0 <= i < |s| ==> Lower(Upper(s))[i] == Lower(s)[i];
  }

  /** Lower-casing twice is lower-casing once. */
  lemma LowerIdempotent(s: string)
    ensures Lower(Lower(s)) == Lower(s)
  {
    assert forall i :: 0 <= i < |s| ==> Lower(Lower(s))[i] == Lower(s)[i];
  }

  /** The whitespace `str.strip()` removes, restricted to Latin-1. */
  predicate IsSpace(c: char) {
    c == ' ' || 9 <= c as int <= 13 || 28 <= c as int <= 31 || c as int == 0x85 || c as int == 0xA0
  }

  function StripLeft(s: string): (r: string)
    ensures |r| <= |s| && r == s[|s| - |r|..]
    ensures r == [] || !IsSpace(r[0])
  {
    if s != [] && IsSpace(s[0]) then StripLeft(s[1..]) else s
  }

  function StripRight(s: string): (r: string)
    ensures |r| <= |s| && r == s[..|r|]
    ensures r == [] || !IsSpace(r[|r| - 1])
  {
    if s != [] && IsSpace(s[|s| - 1]) then StripRight(s[..|s| - 1]) else s
  }

  /** Stripping trailing white space keeps a first character that is not white space. */
  lemma {:induction false} StripRightKeepsHead(s: string)
    requires s != [] && !IsSpace(s[0])
    ensures StripRight(s) != [] && StripRight(s)[0] == s[0]
    decreases |s|
  {
    if IsSpace(s[|s| - 1]) {
      StripRightKeepsHead(s[..|s| - 1]);
    }
  }

  /** `str.strip()`. */
  function Strip(s: string): (r: string)
    ensures |r| <= |s|
    ensures r == [] || (!IsSpace(r[0]) && !IsSpace(r[|r| - 1]))
  {
    StripRight(StripLeft(s))
  }

  /** Stripping only removes characters: whatever the result holds, the input held. */
  lemma StripChars(s: string)
    ensures forall c :: c in Strip(s) ==> c in s
  {
    var l := StripLeft(s);
    var r := StripRight(l);
    assert forall c :: c in r ==> c in l;
    assert forall c :: c in l ==> c in s;
  }

  /** `sep.join(parts)`. */
  function Join(parts: seq<string>, sep: string): string {
    if parts == [] then "" else if |parts| == 1 then parts[0] else parts[0] + sep + Join(parts[1..], sep)
  }

  /** Every part of a joined text occurs in it. */
  lemma {:induction false} JoinContains(parts: seq<string>, sep: string, i: nat)
    requires i < |parts|
    ensures Contains(Join(parts, sep), parts[i])
    decreases |parts|
  {
    if |parts| == 1 {
      ContainsAt(parts[0], parts[0], 0);
    } else if i == 0 {
      ContainsAt(parts[0], parts[0], 0);
      ContainsExtend(parts[0], sep + Join(parts[1..], sep), parts[0]);
      assert parts[0] + (sep + Join(parts[1..], sep)) == Join(parts, sep);
    } else {
      JoinContains(parts[1..], sep, i - 1);
      ContainsExtend(Join(parts[1..], sep), parts[0] + sep, parts[i]);
    }
  }

  /** `s[:n]`. */
  function Take(s: string, n: nat): (r: string)
    ensures |r| <= n && StartsWith(s, r)
  {
    if |s| <= n then s else s[..n]
  }

  function DigitChar(d: nat): char
    requires d < 10
  {
    ("0123456789")[d]
  }

  /** `str(n)` for a natural number. */
  function NatToString(n: nat): (r: string)
    ensures |r| >= 1
  {
    if n < 10 then [DigitChar(n)] else NatToString(n / 10) + [DigitChar(n % 10)]
  }

  /** `str(i)` for an integer. */
  function IntToString(i: int): string {
    if i < 0 then "-" + NatToString(-i) else NatToString(i)
  }

  /** `f"{n:03d}"` for a natural number. */
  function Pad3(n: nat): (r: string)
    ensures |r| >= 3
  {
    var digits := NatToString(n);
    if |digits| >= 3 then digits else seq(3 - |digits|, _ => '0') + digits
  }

  function Abs(r: real): real {
    if r < 0.0 then -r else r
  }

  /**
   * `f"{r:.2f}"`.  Rounds the exact rational half away from zero; Python
   * rounds the binary double, which can differ on exact halves.
   */
  function Fixed2(r: real): string {
    var cents := (Abs(r) * 100.0 + 0.5).Floor;
    var whole := cents / 100;
    var frac := cents % 100;
    (if r < 0.0 && cents > 0 then "-" else "")
      + NatToString(whole) + "." + [DigitChar(frac / 10), DigitChar(frac % 10)]
  }

  function TrimZeros(digits: string): string {
    if |digits| > 1 && digits[|digits| - 1] == '0' then TrimZeros(digits[..|digits| - 1]) else digits
  }

  /**
   * `repr(r)` for a float: shortest decimal text, here approximated by at
   * most six fractional digits with trailing zeros removed and at least one kept.
   */
  function FloatRepr(r: real): string {
    var micro := (Abs(r) * 1000000.0 + 0.5).Floor;
    var whole := micro / 1000000;
    var frac := micro % 1000000;
    var fracDigits := NatToString(1000000 + frac)[1..];
    (if r < 0.0 && micro > 0 then "-" else "") + NatToString(whole) + "." + TrimZeros(fracDigits)
  }

  /** `repr(s)` for a string, without Python's escaping of quotes and control characters. */
  function Quote(s: string): string {
    "'" + s + "'"
  }

  /** `str(xs)` for a list of strings. */
  function StrListRepr(xs: seq<string>): string {
    "[" + Join(seq(|xs|, i requires 0 <= i < |xs| => Quote(xs[i])), ", ") + "]"
  }

  /** `s.split(marker, 1)[1]`: the text after the first occurrence of `marker`. */
  function AfterFirst(s: string, marker: string): (r: string)
    requires Contains(s, marker)
    ensures |r| <= |s|
    decreases |s|
  {
    if StartsWith(s, marker) then s[|marker|..] else AfterFirst(s[1..], marker)
  }

  /** `re.split("[...]", s)` for a character class: the pieces between delimiters. */
  function SplitAny(s: string, delims: set<char>): (pieces: seq<string>)
    ensures |pieces| >= 1
    ensures forall p :: p in pieces ==> forall c :: c in p ==> c !in delims
  {
    if s == [] then [""]
    else
      var rest := SplitAny(s[1..], delims);
      if s[0] in delims then [""] + rest
      else
        var head := [s[0]] + rest[0];
        assert rest[0] in rest;
        assert forall c :: c in head ==> c == s[0] || c in rest[0];
        assert forall p :: p in rest[1..] ==> p in rest;
        [head] + rest[1..]
  }

  /** Text without a delimiter is a single piece. */
  lemma {:induction false} SplitAnyWhole(s: string, delims: set<char>)
    requires forall c :: c in s ==> c !in delims
    ensures SplitAny(s, delims) == [s]
    decreases |s|
  {
    if s != [] {
      assert forall c :: c in s[1..] ==> c in s;
      SplitAnyWhole(s[1..], delims);
      assert [s[0]] + s[1..] == s;
    }
  }
}
