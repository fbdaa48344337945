/** The Python string operations the backend relies on (`str.strip`, `str.split`,
    `str.lower`, `str.upper`, substring search, the `re.sub` whitespace collapses),
    written over `string` = `seq<char>`. */
module Text {
  import opened Wrappers

  /** `c.isspace()` in Python: the characters `str.strip()` and the regex class `\s` remove. */
  predicate IsSpace(c: char) {
    var n := c as int;
    || (0x09 <= n <= 0x0D) || (0x1C <= n <= 0x20)
    || n == 0x85 || n == 0xA0 || n == 0x1680
    || (0x2000 <= n <= 0x200A)
    || n == 0x2028 || n == 0x2029 || n == 0x202F || n == 0x205F || n == 0x3000
  }

  /** The characters of the regex class `[ \t]`. */
  predicate IsBlank(c: char) {
    c == ' ' || c == '\t'
  }

  predicate IsDigit(c: char) {
    '0' <= c <= '9'
  }

  predicate AllDigits(s: string) {
    forall i :: 0 <= i < |s| ==> IsDigit(s[i])
  }

  // ---------------------------------------------------------------- strip

  /** `s.strip()`: white space removed from both ends. */
  function Strip(s: string): (r: string)
    ensures |r| <= |s|
    decreases |s|
  {
    if |s| == 0 then s
    else if IsSpace(s[0]) then Strip(s[1..])
    else if IsSpace(s[|s| - 1]) then Strip(s[..|s| - 1])
    else s
  }

  /** `Strip(s)` sits at some offset `i` of `s`; everything before and after it is white space,
      and it neither starts nor ends with white space. */
  lemma {:induction false} StripOffset(s: string) returns (i: nat)
    ensures i + |Strip(s)| <= |s| && Strip(s) == s[i..i + |Strip(s)|]
    ensures Strip(s) == [] || (!IsSpace(Strip(s)[0]) && !IsSpace(Strip(s)[|Strip(s)| - 1]))
    ensures forall j :: 0 <= j < i ==> IsSpace(s[j])
    ensures forall j :: i + |Strip(s)| <= j < |s| ==> IsSpace(s[j])
    decreases |s|
  {
    var r := Strip(s);
    if |s| == 0 {
      i := 0;
    } else if IsSpace(s[0]) {
      var t := s[1..];
      assert r == Strip(t);
      var k := StripOffset(t);
      i := k + 1;
      forall j | 0 <= j < i ensures IsSpace(s[j]) {
        if j > 0 { assert s[j] == t[j - 1]; }
      }
      forall j | i + |r| <= j < |s| ensures IsSpace(s[j]) {
        assert s[j] == t[j - 1];
      }
      assert t[k..k + |r|] == s[i..i + |r|];
    } else if IsSpace(s[|s| - 1]) {
      var t := s[..|s| - 1];
      assert r == Strip(t);
      i := StripOffset(t);
      forall j | i + |r| <= j < |s| ensures IsSpace(s[j]) {
        if j < |s| - 1 { assert s[j] == t[j]; }
      }
      assert t[i..i + |r|] == s[i..i + |r|];
    } else {
      i := 0;
      assert r == s;
      assert s[0..|s|] == s;
    }
  }

  lemma {:induction false} StripIsFactor(s: string)
    ensures Contains(s, Strip(s))
    ensures Strip(s) == [] || (!IsSpace(Strip(s)[0]) && !IsSpace(Strip(s)[|Strip(s)| - 1]))
  {
    var i := StripOffset(s);
    assert OccursAt(s, Strip(s), i);
  }

  /** Stripping removes nothing from a string that neither starts nor ends with white space. */
  lemma {:induction false} StripIdempotent(s: string)
    ensures Strip(Strip(s)) == Strip(s)
  {
    var i := StripOffset(s);
  }

  /** Every character of `s` is white space. */
  predicate AllSpace(s: string) {
    forall i :: 0 <= i < |s| ==> IsSpace(s[i])
  }

  lemma {:induction false} AllSpaceConcat(a: string, b: string)
    ensures AllSpace(a + b) <==> AllSpace(a) && AllSpace(b)
  {
    var c := a + b;
    assert forall i :: 0 <= i < |a| ==> c[i] == a[i];
    assert forall i :: 0 <= i < |b| ==> c[|a| + i] == b[i];
    if AllSpace(a) && AllSpace(b) {
      forall i | 0 <= i < |c| ensures IsSpace(c[i]) {
        if i >= |a| { assert c[i] == b[i - |a|]; }
      }
    }
  }

  /** A string is blank after stripping exactly when all of it is white space. */
  lemma {:induction false} StripEmptyIff(s: string)
    ensures Strip(s) == [] <==> AllSpace(s)
  {
    var i := StripOffset(s);
    if Strip(s) != [] {
      assert Strip(s)[0] == s[i];
    }
  }

  // ---------------------------------------------------------------- search

  /** `p` occurs in `s` at index `i`. */
  predicate OccursAt(s: string, p: string, i: int) {
    0 <= i && i + |p| <= |s| && s[i..i + |p|] == p
  }

  /** `p in s` for Python strings. */
  ghost predicate Contains(s: string, p: string) {
    exists i :: 0 <= i <= |s| && OccursAt(s, p, i)
  }

  /** The index of the leftmost occurrence of `p` in `s` at or after `from`, as `s.find(p, from)`. */
  function FindFrom(s: string, p: string, from: nat): (r: Option<nat>)
    decreases |s| - from
    ensures r.Some? ==> from <= r.value && OccursAt(s, p, r.value)
    ensures r.Some? ==> forall j :: from <= j < r.value ==> !OccursAt(s, p, j)
    ensures r.None? ==> forall j :: from <= j ==> !OccursAt(s, p, j)
  {
    if from + |p| > |s| then None
    else if s[from..from + |p|] == p then Some(from)
    else FindFrom(s, p, from + 1)
  }

  /** The leftmost occurrence of `p` in `s`. */
  function Find(s: string, p: string): (r: Option<nat>)
    ensures r.Some? <==> Contains(s, p)
    ensures r.Some? ==> OccursAt(s, p, r.value) && forall j :: 0 <= j < r.value ==> !OccursAt(s, p, j)
  {
    FindFrom(s, p, 0)
  }

  /** `p in s`, computed. */
  function ContainsText(s: string, p: string): (b: bool)
    ensures b <==> Contains(s, p)
  {
    Find(s, p).Some?
  }

  // ---------------------------------------------------------------- case

  /** `c.lower()` for ASCII letters and the upper-case letters of Czech. */
  function LowerChar(c: char): char {
    if 'A' <= c <= 'Z' then (c as int + 32) as char
    else match c
      case 'Á' => 'á' case 'Č' => 'č' case 'Ď' => 'ď' case 'É' => 'é' case 'Ě' => 'ě'
      case 'Í' => 'í' case 'Ň' => 'ň' case 'Ó' => 'ó' case 'Ř' => 'ř' case 'Š' => 'š'
      case 'Ť' => 'ť' case 'Ú' => 'ú' case 'Ů' => 'ů' case 'Ý' => 'ý' case 'Ž' => 'ž'
      case _ => c
  }

  /** `c.upper()` for ASCII letters. */
  function UpperChar(c: char): char {
    if 'a' <= c <= 'z' then (c as int - 32) as char else c
  }

  function Lower(s: string): (r: string)
    ensures |r| == |s| && forall i :: 0 <= i < |s| ==> r[i] == LowerChar(s[i])
  {
    if |s| == 0 then "" else [LowerChar(s[0])] + Lower(s[1..])
  }

  function Upper(s: string): (r: string)
    ensures |r| == |s| && forall i :: 0 <= i < |s| ==> r[i] == UpperChar(s[i])
  {
    if |s| == 0 then "" else [UpperChar(s[0])] + Upper(s[1..])
  }

  // ---------------------------------------------------------------- split and join

  /** `sep.join(parts)`. */
  function Join(parts: seq<string>, sep: string): string {
    if |parts| == 0 then ""
    else if |parts| == 1 then parts[0]
    else parts[0] + sep + Join(parts[1..], sep)
  }

  /** A join starts with its first part. */
  lemma JoinStartsWithFirst(parts: seq<string>, sep: string)
    requires |parts| > 0
    ensures |parts[0]| <= |Join(parts, sep)| && Join(parts, sep)[..|parts[0]|] == parts[0]
  {
    if |parts| > 1 {
      assert Join(parts, sep) == parts[0] + (sep + Join(parts[1..], sep));
    }
  }

  /** `s.split(sep)` for a one-character separator: the pieces between the separators, in order. */
  function Split(s: string, sep: char): (parts: seq<string>)
    ensures |parts| >= 1
    ensures forall k, i :: 0 <= k < |parts| && 0 <= i < |parts[k]| ==> parts[k][i] != sep
  {
    if sep !in s then [s]
    else
      var i := IndexOf(s, sep);
      [s[..i]] + Split(s[i + 1..], sep)
  }

  /** The first position of `c` in `s`. */
  function IndexOf(s: string, c: char): (i: nat)
    requires c in s
    ensures i < |s| && s[i] == c && c !in s[..i]
  {
    if s[0] == c then 0 else 1 + IndexOf(s[1..], c)
  }

  /** `s.split(c, 1)`: the text before the first `c` and the text after it; without a `c`, the
      whole text and nothing. */
  function SplitOnce(s: string, c: char): (r: (string, string))
    ensures c in s ==> s == r.0 + [c] + r.1 && c !in r.0
    ensures c !in s ==> r == (s, "")
  {
    if c in s then
      var i := IndexOf(s, c);
      assert s == s[..i] + [c] + s[i + 1..];
      (s[..i], s[i + 1..])
    else (s, "")
  }

  /** Splitting and joining again gives back the original string. */
  lemma {:induction false} SplitJoin(s: string, sep: char)
    ensures Join(Split(s, sep), [sep]) == s
  {
    if sep in s {
      var i := IndexOf(s, sep);
      var rest := s[i + 1..];
      SplitJoin(rest, sep);
      var parts := Split(s, sep);
      assert parts == [s[..i]] + Split(rest, sep);
      assert parts[1..] == Split(rest, sep);
      assert |parts| >= 2;
      assert Join(parts, [sep]) == s[..i] + [sep] + Join(Split(rest, sep), [sep]);
      assert s == s[..i] + [sep] + rest;
    }
  }

  /** The first piece of a split is the text before the first separator, or all of `s`. */
  lemma {:induction false} SplitFirst(s: string, sep: char)
    ensures sep in s ==> Split(s, sep)[0] == s[..IndexOf(s, sep)]
    ensures sep !in s ==> Split(s, sep) == [s]
  {
  }

  /** The first two pieces of a split are those `split(c, 1)` gives, applied twice. */
  lemma {:induction false} SplitPieces(s: string, c: char)
    ensures Split(s, c)[0] == SplitOnce(s, c).0
    ensures c !in s <==> |Split(s, c)| == 1
    ensures c in s ==> Split(s, c)[1] == SplitOnce(SplitOnce(s, c).1, c).0
  {
    if c in s {
      var i := IndexOf(s, c);
      var rest := s[i + 1..];
      assert Split(s, c) == [s[..i]] + Split(rest, c);
      SplitFirst(rest, c);
    }
  }

  // ---------------------------------------------------------------- white-space collapses

  /** `s` with its leading characters satisfying `IsBlank` removed. */
  function DropBlanks(s: string): (r: string)
    ensures |r| <= |s| && r == s[|s| - |r|..]
    ensures r == [] || !IsBlank(r[0])
  {
    if |s| > 0 && IsBlank(s[0]) then DropBlanks(s[1..]) else s
  }

  /** `re.sub(r"[ \t]+", " ", s)`: every run of spaces and tabs becomes a single space. */
  function CollapseBlanks(s: string): (r: string)
    decreases |s|
  {
    if |s| == 0 then ""
    else if IsBlank(s[0]) then " " + CollapseBlanks(DropBlanks(s[1..]))
    else [s[0]] + CollapseBlanks(s[1..])
  }

  /** No tab and no two spaces in a row. */
  predicate NoBlankRun(s: string) {
    && (forall i :: 0 <= i < |s| ==> s[i] != '\t')
    && (forall i :: 0 <= i < |s| - 1 ==> !(s[i] == ' ' && s[i + 1] == ' '))
  }

  /** The collapsed string has no tab, no double space, and starts with a blank only where `s` does. */
  lemma {:induction false} CollapseBlanksNoRun(s: string)
    ensures NoBlankRun(CollapseBlanks(s))
    ensures CollapseBlanks(s) != [] ==> (IsBlank(CollapseBlanks(s)[0]) <==> IsBlank(s[0]))
    ensures CollapseBlanks(s) == [] <==> s == []
    decreases |s|
  {
    if |s| == 0 {
    } else if IsBlank(s[0]) {
      var t := DropBlanks(s[1..]);
      CollapseBlanksNoRun(t);
      var c := CollapseBlanks(t);
      assert c == [] || !IsBlank(c[0]);
      assert CollapseBlanks(s) == " " + c;
    } else {
      CollapseBlanksNoRun(s[1..]);
      assert CollapseBlanks(s) == [s[0]] + CollapseBlanks(s[1..]);
    }
  }

  /** Every factor of a string without blank runs is without blank runs. */
  lemma {:induction false} NoBlankRunFactor(s: string, i: int, j: int)
    requires NoBlankRun(s) && 0 <= i <= j <= |s|
    ensures NoBlankRun(s[i..j])
  {
    var t := s[i..j];
    forall k | 0 <= k < |t| - 1 ensures !(t[k] == ' ' && t[k + 1] == ' ') {
      assert t[k] == s[i + k] && t[k + 1] == s[i + k + 1];
    }
  }

  /** `s` with its leading white space removed. */
  function DropSpace(s: string): (r: string)
    ensures |r| <= |s| && (r == [] || !IsSpace(r[0]))
  {
    if |s| > 0 && IsSpace(s[0]) then DropSpace(s[1..]) else s
  }

  /** `re.sub(r"\s+", " ", s)`: every run of white space becomes a single space. */
  function CollapseSpace(s: string): (r: string)
    decreases |s|
  {
    if |s| == 0 then ""
    else if IsSpace(s[0]) then " " + CollapseSpace(DropSpace(s[1..]))
    else [s[0]] + CollapseSpace(s[1..])
  }

  // ---------------------------------------------------------------- numbers as text

  /** The decimal digits of `n`, as `str(n)` writes them. */
  function NatToString(n: nat): (s: string)
    ensures |s| >= 1 && AllDigits(s)
  {
    if n < 10 then [DigitChar(n)] else NatToString(n / 10) + [DigitChar(n % 10)]
  }

  function DigitChar(d: nat): (c: char)
    requires d < 10
    ensures IsDigit(c)
  {
    ('0' as int + d) as char
  }

  /** The value of a string of decimal digits, as `int(s)` reads it. */
  function DigitsValue(s: string): nat
    requires AllDigits(s)
  {
    if |s| == 0 then 0 else DigitsValue(s[..|s| - 1]) * 10 + (s[|s| - 1] as int - '0' as int)
  }

  /** A digit string has a positive value exactly when some digit is not '0'. */
  lemma {:induction false} DigitsValuePositive(s: string)
    requires AllDigits(s)
    ensures DigitsValue(s) > 0 <==> exists i :: 0 <= i < |s| && s[i] != '0'
  {
    if |s| > 0 {
      var init := s[..|s| - 1];
      assert forall i :: 0 <= i < |init| ==> init[i] == s[i];
      DigitsValuePositive(init);
      if DigitsValue(s) > 0 && DigitsValue(init) == 0 {
        assert s[|s| - 1] != '0';
      }
    }
  }
}
