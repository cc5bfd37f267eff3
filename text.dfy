/**
 * The Python string operations the core relies on: `str.strip()` emptiness, `str.split(sep)`,
 * `sep.join(...)` (the shape GROUP_CONCAT produces), `s.split('#')[-1]`, `str.upper()`,
 * substring tests, and `int(text)` / `float(text)` on the text of an RDF term.
 */
module Text {
  import opened Wrappers

  /** Python's `str.isspace()` for one character: the characters `str.strip()` removes. */
  predicate IsSpace(c: char) {
    || c == ' '
    || ('\t' <= c <= '\r')
    || ('\U{1C}' <= c <= '\U{1F}')
    || c == '\U{85}' || c == '\U{A0}' || c == '\U{1680}'
    || ('\U{2000}' <= c <= '\U{200A}')
    || c == '\U{2028}' || c == '\U{2029}' || c == '\U{202F}' || c == '\U{205F}' || c == '\U{3000}'
  }

  /** `not s.strip()`: the text is empty or made of whitespace only. */
  predicate IsBlank(s: string) {
    forall i | 0 <= i < |s| :: IsSpace(s[i])
  }

  /** `sep.join(parts)`. */
  function Join(parts: seq<string>, sep: string): string {
    if |parts| == 0 then ""
    else if |parts| == 1 then parts[0]
    else parts[0] + sep + Join(parts[1..], sep)
  }

  /** `sep` occurs in `s` starting at index `i`. */
  predicate OccursAt(s: string, sep: string, i: int) {
    0 <= i && i + |sep| <= |s| && s[i..i + |sep|] == sep
  }

  /** Index of the first occurrence of `sep` in `s` at or after `from`, or -1 when there is none. */
  function Find(s: string, sep: string, from: nat): (i: int)
    requires |sep| > 0
    ensures i == -1 || (from <= i && OccursAt(s, sep, i))
    ensures forall j | from <= j && (i == -1 || j < i) :: !OccursAt(s, sep, j)
    decreases |s| - from
  {
    if from + |sep| > |s| then -1
    else if s[from..from + |sep|] == sep then from
    else Find(s, sep, from + 1)
  }

  /** `s.split(sep)`: the pieces between the non-overlapping occurrences of `sep`, left to right. */
  function Split(s: string, sep: string): (parts: seq<string>)
    requires |sep| > 0
    ensures |parts| >= 1
    decreases |s|
  {
    var i := Find(s, sep, 0);
    if i < 0 then [s] else [s[..i]] + Split(s[i + |sep|..], sep)
  }

  /** `s.split('#')[-1]`: the text after the last `'#'`, or all of `s` when it has none. */
  function LocalName(s: string): string {
    var parts := Split(s, "#");
    parts[|parts| - 1]
  }

  /** `sub in s`. */
  predicate Contains(s: string, sub: string) {
    exists i | 0 <= i <= |s| - |sub| :: OccursAt(s, sub, i)
  }

  function UpperChar(c: char): char {
    if 'a' <= c <= 'z' then (c as int - 32) as char else c
  }

  /** `s.upper()` on ASCII letters. */
  function Upper(s: string): string {
    seq(|s|, i requires 0 <= i < |s| => UpperChar(s[i]))
  }

  /** `s[:n]`. */
  function Take(s: string, n: nat): string {
    if |s| <= n then s else s[..n]
  }

  function StripLeft(s: string): string
    decreases |s|
  {
    if |s| > 0 && IsSpace(s[0]) then StripLeft(s[1..]) else s
  }

  function StripRight(s: string): string
    decreases |s|
  {
    if |s| > 0 && IsSpace(s[|s| - 1]) then StripRight(s[..|s| - 1]) else s
  }

  /** `s.strip()`. */
  function Strip(s: string): string {
    StripRight(StripLeft(s))
  }

  predicate IsDigit(c: char) {
    '0' <= c <= '9'
  }

  predicate AllDigits(s: string) {
    forall i | 0 <= i < |s| :: IsDigit(s[i])
  }

  function DigitsValue(s: string): nat
    requires AllDigits(s)
  {
    if |s| == 0 then 0 else DigitsValue(s[..|s| - 1]) * 10 + (s[|s| - 1] as int - '0' as int)
  }

  function Pow10(n: nat): (r: nat)
    ensures r >= 1
  {
    if n == 0 then 1 else 10 * Pow10(n - 1)
  }

  /** The text after an optional leading sign. */
  function Unsigned(t: string): string {
    if |t| > 0 && (t[0] == '+' || t[0] == '-') then t[1..] else t
  }

  function ApplySign(t: string, v: real): real {
    if |t| > 0 && t[0] == '-' then -v else v
  }

  /** Digits with an optional fraction: `12`, `12.5`, `12.`, `.5` (but not `.`). */
  function DecimalBody(t: string): Option<real> {
    var dot := Find(t, ".", 0);
    if dot < 0 then
      if |t| > 0 && AllDigits(t) then Some(DigitsValue(t) as real) else None
    else
      var whole, frac := t[..dot], t[dot + 1..];
      if AllDigits(whole) && AllDigits(frac) && |whole| + |frac| > 0 then
        Some(DigitsValue(whole) as real + DigitsValue(frac) as real / Pow10(|frac|) as real)
      else None
  }

  /** `int(text)`: surrounding whitespace, an optional sign and ASCII digits; anything else raises. */
  function ParseInt(text: string): Option<int> {
    var t := Strip(text);
    var body := Unsigned(t);
    if |body| > 0 && AllDigits(body) then
      var v: int := DigitsValue(body);
      Some(if |t| > 0 && t[0] == '-' then -v else v)
    else None
  }

  /** `float(text)` on decimal numerals (exponents, `inf`, `nan` and `_` are not modelled). */
  function ParseDecimal(text: string): Option<real> {
    var t := Strip(text);
    match DecimalBody(Unsigned(t))
    case None => None
    case Some(v) => Some(ApplySign(t, v))
  }

  /** The `int(x)` of a float: truncation toward zero. */
  function Truncate(x: real): (n: int)
    ensures x >= 0.0 ==> 0 <= n && n as real <= x < n as real + 1.0
    ensures x < 0.0 ==> n <= 0 && n as real - 1.0 < x <= n as real
  {
    if x >= 0.0 then x.Floor else -((-x).Floor)
  }

  // Lemmas

  lemma {:induction false} FindNone(s: string, c: char, from: nat)
    requires c !in s
    ensures Find(s, [c], from) == -1
  {
    forall j | 0 <= j < |s| ensures !OccursAt(s, [c], j) {
      assert s[j..j + 1] == [s[j]];
    }
  }

  lemma {:induction false} FindFirst(p: string, c: char, rest: string)
    requires c !in p
    ensures Find(p + [c] + rest, [c], 0) == |p|
  {
    var s := p + [c] + rest;
    assert s[|p|..|p| + 1] == [c];
    assert OccursAt(s, [c], |p|);
    forall j | 0 <= j < |p| ensures !OccursAt(s, [c], j) {
      assert s[j..j + 1] == [p[j]];
    }
  }

  /** Splitting a join on a one-character separator that no piece contains gives the pieces back. */
  lemma {:induction false} SplitJoin(parts: seq<string>, c: char)
    requires |parts| >= 1
    requires forall k | 0 <= k < |parts| :: c !in parts[k]
    ensures Split(Join(parts, [c]), [c]) == parts
  {
    if |parts| == 1 {
      FindNone(parts[0], c, 0);
    } else {
      var rest := Join(parts[1..], [c]);
      var s := parts[0] + [c] + rest;
      assert Join(parts, [c]) == s;
      FindFirst(parts[0], c, rest);
      assert s[..|parts[0]|] == parts[0];
      assert s[|parts[0]| + 1..] == rest;
      SplitJoin(parts[1..], c);
      assert [parts[0]] + parts[1..] == parts;
    }
  }

  /** The text after the last `'#'` of `base + "#" + name` is `name` when neither part has a `'#'`. */
  lemma LocalNameAfterHash(base: string, name: string)
    requires '#' !in base && '#' !in name
    ensures LocalName(base + "#" + name) == name
  {
    assert Join([base, name], "#") == base + "#" + name;
    SplitJoin([base, name], '#');
  }

  /** A joined text that has a non-blank first piece is not blank. */
  lemma JoinNotBlank(parts: seq<string>, sep: string)
    requires |parts| >= 1 && |parts[0]| > 0 && !IsSpace(parts[0][0])
    ensures !IsBlank(Join(parts, sep))
  {
    if |parts| > 1 {
      assert Join(parts, sep)[0] == parts[0][0];
    }
  }

  lemma {:induction false} StripLeftKeeps(s: string, i: nat)
    requires i < |s| && !IsSpace(s[i])
    ensures s[i] in StripLeft(s)
  {
    if |s| > 0 && IsSpace(s[0]) {
      assert i > 0 && s[1..][i - 1] == s[i];
      StripLeftKeeps(s[1..], i - 1);
      assert StripLeft(s) == StripLeft(s[1..]);
    }
  }

  lemma {:induction false} StripRightKeeps(s: string, i: nat)
    requires i < |s| && !IsSpace(s[i])
    ensures s[i] in StripRight(s)
  {
    if |s| > 0 && IsSpace(s[|s| - 1]) {
      assert i < |s| - 1 && s[..|s| - 1][i] == s[i];
      StripRightKeeps(s[..|s| - 1], i);
      assert StripRight(s) == StripRight(s[..|s| - 1]);
    }
  }

  /**
   * `int(text)` raises on a numeral with a decimal point, such as the lexical form `"20.0"` of an
   * xsd:decimal literal.
   */
  lemma IntRejectsDecimalPoint(text: string)
    requires '.' in text
    ensures ParseInt(text).None?
  {
    var i :| 0 <= i < |text| && text[i] == '.';
    StripLeftKeeps(text, i);
    var j :| 0 <= j < |StripLeft(text)| && StripLeft(text)[j] == '.';
    StripRightKeeps(StripLeft(text), j);
    assert '.' in Strip(text);
    var t := Strip(text);
    var k :| 0 <= k < |t| && t[k] == '.';
    if |t| > 0 && (t[0] == '+' || t[0] == '-') {
      assert k > 0 && Unsigned(t)[k - 1] == '.';
    } else {
      assert Unsigned(t)[k] == '.';
    }
  }

  /** `float(s)` agrees with `int(s)` on every numeral `int` accepts. */
  lemma DecimalAgreesWithInt(text: string)
    requires ParseInt(text).Some?
    ensures ParseDecimal(text) == Some(ParseInt(text).value as real)
  {
    var t := Strip(text);
    var body := Unsigned(t);
    assert forall k | 0 <= k < |body| :: body[k] != '.';
    FindNone(body, '.', 0);
    assert DecimalBody(body) == Some(DigitsValue(body) as real);
  }
}
