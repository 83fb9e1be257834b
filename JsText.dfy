/**
 * The JavaScript string operations the command-line tool relies on, stated over
 * `seq<char>`: truthiness of optional fields, `trim`, ASCII case mapping, the
 * regular-expression replacements used to sanitise filename segments,
 * `split(' ')`/`join(' ')`, `includes`, `endsWith`, and the decimal rendering of
 * numbers inside template literals.
 */
module JsText {

  datatype Option<+T> = None | Some(value: T) {
    function GetOr(default: T): T {
      match this
      case Some(v) => v
      case None => default
    }
  }

  /** JavaScript truthiness of an optional string field: a missing field and "" are falsy. */
  predicate Truthy(o: Option<string>) {
    o.Some? && o.value != ""
  }

  /** `field || fallback` on an optional string field. */
  function OrElse(o: Option<string>, fallback: string): string {
    if Truthy(o) then o.value else fallback
  }

  /** A template literal `${field}` on an optional string field renders a missing one as "undefined". */
  function Interpolate(o: Option<string>): string {
    match o
    case Some(s) => s
    case None => "undefined"
  }

  /** The characters of the regular-expression class `\s` (WhiteSpace and LineTerminator),
      which is also the set that `String.prototype.trim` removes. */
  predicate IsSpace(c: char) {
    || c == '\t' || c == '\n' || c == '\U{000B}' || c == '\U{000C}' || c == '\r'
    || c == ' ' || c == '\U{00A0}' || c == '\U{1680}'
    || ('\U{2000}' <= c <= '\U{200A}')
    || c == '\U{2028}' || c == '\U{2029}' || c == '\U{202F}' || c == '\U{205F}'
    || c == '\U{3000}' || c == '\U{FEFF}'
  }

  predicate IsAsciiAlnum(c: char) {
    ('a' <= c <= 'z') || ('A' <= c <= 'Z') || ('0' <= c <= '9')
  }

  predicate IsLowerLetter(c: char) {
    'a' <= c <= 'z'
  }

  predicate IsDigit(c: char) {
    '0' <= c <= '9'
  }

  predicate StartsWith(s: string, prefix: string) {
    |prefix| <= |s| && s[..|prefix|] == prefix
  }

  /** `s.endsWith(suffix)`: a plain suffix test, with no notion of a label boundary. */
  predicate EndsWith(s: string, suffix: string) {
    |suffix| <= |s| && s[|s| - |suffix|..] == suffix
  }

  /** t occurs in s starting at position i. */
  predicate At(s: string, t: string, i: nat) {
    i + |t| <= |s| && s[i..i + |t|] == t
  }

  /** `s.includes(t)`, stated as: t occurs at some position of s. */
  ghost predicate OccursIn(t: string, s: string) {
    exists i: nat :: At(s, t, i)
  }

  /** `s.includes(t)`, computed by scanning s from the left. */
  function Includes(s: string, t: string): (r: bool)
    ensures r <==> OccursIn(t, s)
    decreases |s|
  {
    if StartsWith(s, t) then
      assert At(s, t, 0);
      true
    else if |s| <= |t| then
      assert !OccursIn(t, s) by {
        forall i: nat ensures !At(s, t, i) {
          if i + |t| <= |s| {
            assert s[i..i + |t|] == s[..|t|];
          }
        }
      }
      false
    else
      var r := Includes(s[1..], t);
      assert OccursIn(t, s[1..]) ==> OccursIn(t, s) by {
        if OccursIn(t, s[1..]) {
          var i: nat :| At(s[1..], t, i);
          assert s[i + 1..i + 1 + |t|] == s[1..][i..i + |t|];
          assert At(s, t, i + 1);
        }
      }
      assert OccursIn(t, s) ==> OccursIn(t, s[1..]) by {
        if OccursIn(t, s) {
          var i: nat :| At(s, t, i);
          assert i != 0;
          assert s[1..][i - 1..i - 1 + |t|] == s[i..i + |t|];
          assert At(s[1..], t, i - 1);
        }
      }
      r
  }

  // ---------------------------------------------------------------- trim

  /** Leading `\s` characters removed. */
  function TrimStart(s: string): (r: string)
    ensures |r| <= |s| && r == s[|s| - |r|..]
    ensures r == [] || !IsSpace(r[0])
    ensures forall i :: 0 <= i < |s| - |r| ==> IsSpace(s[i])
  {
    if |s| > 0 && IsSpace(s[0]) then TrimStart(s[1..]) else s
  }

  /** Trailing `\s` characters removed. */
  function TrimEnd(s: string): (r: string)
    ensures |r| <= |s| && r == s[..|r|]
    ensures r == [] || !IsSpace(r[|r| - 1])
    ensures forall i :: |r| <= i < |s| ==> IsSpace(s[i])
  {
    if |s| > 0 && IsSpace(s[|s| - 1]) then TrimEnd(s[..|s| - 1]) else s
  }

  /** `s.trim()`: the longest slice of s that neither starts nor ends with a `\s` character,
      everything cut off on either side being `\s`. */
  function Trim(s: string): (r: string)
    ensures exists i, j ::
              && 0 <= i <= j <= |s| && r == s[i..j]
              && (forall k :: 0 <= k < i ==> IsSpace(s[k]))
              && (forall k :: j <= k < |s| ==> IsSpace(s[k]))
    ensures r == [] || (!IsSpace(r[0]) && !IsSpace(r[|r| - 1]))
  {
    var a := TrimStart(s);
    var r := TrimEnd(a);
    var i := |s| - |a|;
    assert r == s[i..i + |r|];
    r
  }

  /** `s.trim()` is empty exactly when s is made of `\s` characters only. */
  lemma TrimEmptyIffBlank(s: string)
    ensures Trim(s) == [] <==> forall k :: 0 <= k < |s| ==> IsSpace(s[k])
  {
    var r := Trim(s);
    var i, j :| && 0 <= i <= j <= |s| && r == s[i..j]
                && (forall k :: 0 <= k < i ==> IsSpace(s[k]))
                && (forall k :: j <= k < |s| ==> IsSpace(s[k]));
    if r != [] {
      assert !IsSpace(s[i]) by { assert r[0] == s[i]; }
    } else {
      assert i == j;
    }
  }

  // ---------------------------------------------------------------- case mapping

  function LowerChar(c: char): char {
    if 'A' <= c <= 'Z' then (c as int + 32) as char else c
  }

  function UpperChar(c: char): char {
    if 'a' <= c <= 'z' then (c as int - 32) as char else c
  }

  /** `s.toLowerCase()` on ASCII letters: same length, every letter mapped in place. */
  function Lower(s: string): (r: string)
    ensures |r| == |s|
    ensures forall i :: 0 <= i < |s| ==> r[i] == LowerChar(s[i])
  {
    if s == [] then [] else [LowerChar(s[0])] + Lower(s[1..])
  }

  /** `s.toUpperCase()` on ASCII letters: same length, every letter mapped in place. */
  function Upper(s: string): (r: string)
    ensures |r| == |s|
    ensures forall i :: 0 <= i < |s| ==> r[i] == UpperChar(s[i])
  {
    if s == [] then [] else [UpperChar(s[0])] + Upper(s[1..])
  }

  /** s spells the lower-case word w with each letter in either case. */
  ghost predicate CaseVariant(s: string, w: string) {
    |s| == |w| && forall i :: 0 <= i < |s| ==> s[i] == w[i] || s[i] == UpperChar(w[i])
  }

  /** Lower-casing s gives the lower-case word w exactly when s is w written in any mix of cases. */
  lemma LowerIsCaseInsensitive(s: string, w: string)
    requires forall i :: 0 <= i < |w| ==> IsLowerLetter(w[i])
    ensures Lower(s) == w <==> CaseVariant(s, w)
  {
    if Lower(s) == w {
      forall i | 0 <= i < |s| ensures s[i] == w[i] || s[i] == UpperChar(w[i]) {
        assert LowerChar(s[i]) == w[i];
      }
    }
    if CaseVariant(s, w) {
      forall i | 0 <= i < |s| ensures Lower(s)[i] == w[i] {
      }
    }
  }

  // ---------------------------------------------------------------- regular-expression replacements

  /** `s.replace(/[^a-zA-Z0-9]/g, '_')` (also `/[^a-z0-9]/gi`, which denotes the same class), one
      `_` per character. Without the `u` flag JavaScript replaces per UTF-16 code unit, so a
      character outside the Basic Multilingual Plane gives two `_` there. */
  function ReplaceNonAlnum(s: string): (r: string)
    ensures |r| == |s|
    ensures forall i :: 0 <= i < |r| ==> IsAsciiAlnum(r[i]) || r[i] == '_'
    ensures forall i :: 0 <= i < |s| && IsAsciiAlnum(s[i]) ==> r[i] == s[i]
    ensures forall i :: 0 <= i < |s| && !IsAsciiAlnum(s[i]) ==> r[i] == '_'
  {
    if s == [] then []
    else [if IsAsciiAlnum(s[0]) then s[0] else '_'] + ReplaceNonAlnum(s[1..])
  }

  /** `s.replace(/[@.]/g, '_')`. */
  function ReplaceAtAndDot(s: string): (r: string)
    ensures |r| == |s|
    ensures forall i :: 0 <= i < |r| ==> r[i] != '@' && r[i] != '.'
    ensures forall i :: 0 <= i < |s| ==> r[i] == (if s[i] == '@' || s[i] == '.' then '_' else s[i])
  {
    if s == [] then []
    else [if s[0] == '@' || s[0] == '.' then '_' else s[0]] + ReplaceAtAndDot(s[1..])
  }

  /** s with its leading run of `\s` characters removed. */
  function DropSpaces(s: string): (r: string)
    ensures |r| <= |s| && r == s[|s| - |r|..]
    ensures r == [] || !IsSpace(r[0])
  {
    if |s| > 0 && IsSpace(s[0]) then DropSpaces(s[1..]) else s
  }

  /** `s.replace(/\s+/g, '_')`: every maximal run of `\s` characters becomes one '_'. */
  function CollapseSpaces(s: string): (r: string)
    ensures |r| <= |s|
    ensures forall i :: 0 <= i < |r| ==> !IsSpace(r[i])
    ensures (forall i :: 0 <= i < |s| ==> !IsSpace(s[i])) ==> r == s
    decreases |s|
  {
    if s == [] then []
    else if IsSpace(s[0]) then "_" + CollapseSpaces(DropSpaces(s[1..]))
    else [s[0]] + CollapseSpaces(s[1..])
  }

  /** Reference definition of `/\s+/g` → '_', a scan from the left that remembers whether it
      is inside a run of `\s` characters: a non-`\s` character is kept and ends the run; the
      first `\s` character of a run gives one '_'; the others give nothing. */
  function CollapseScan(s: string, inRun: bool): string
  {
    if s == [] then []
    else if !IsSpace(s[0]) then [s[0]] + CollapseScan(s[1..], false)
    else if inRun then CollapseScan(s[1..], true)
    else "_" + CollapseScan(s[1..], true)
  }

  /** Inside a run, the scan drops the rest of the run and then collapses what follows. */
  lemma {:induction false} CollapseScanInRun(s: string)
    ensures CollapseScan(s, true) == CollapseSpaces(DropSpaces(s))
  {
    if s != [] {
      if IsSpace(s[0]) {
        CollapseScanInRun(s[1..]);
      } else {
        CollapseScanOutsideRun(s[1..]);
      }
    }
  }

  /** Outside a run, the scan is the replacement. */
  lemma {:induction false} CollapseScanOutsideRun(s: string)
    ensures CollapseScan(s, false) == CollapseSpaces(s)
  {
    if s != [] {
      if IsSpace(s[0]) {
        CollapseScanInRun(s[1..]);
      } else {
        CollapseScanOutsideRun(s[1..]);
      }
    }
  }

  /** The replacement equals the left-to-right scan: every non-`\s` character is kept in
      order, and each maximal run of `\s` characters becomes exactly one '_'. */
  lemma CollapseSpacesScansLeftToRight(s: string)
    ensures CollapseSpaces(s) == CollapseScan(s, false)
  {
    CollapseScanOutsideRun(s);
  }

  // ---------------------------------------------------------------- split and join

  /** `s.split(sep)` for a one-character separator. */
  function Split(s: string, sep: char): (parts: seq<string>)
    ensures |parts| >= 1
    ensures forall k :: 0 <= k < |parts| ==> sep !in parts[k]
  {
    if s == [] then [""]
    else
      var rest := Split(s[1..], sep);
      if s[0] == sep then [""] + rest else [[s[0]] + rest[0]] + rest[1..]
  }

  /** `parts.join(sep)`. */
  function Join(parts: seq<string>, sep: string): string {
    if parts == [] then ""
    else if |parts| == 1 then parts[0]
    else parts[0] + sep + Join(parts[1..], sep)
  }

  /** Splitting and re-joining with the same separator gives back the string. */
  lemma {:induction false} JoinSplit(s: string, sep: char)
    ensures Join(Split(s, sep), [sep]) == s
  {
    if s != [] {
      var rest := Split(s[1..], sep);
      JoinSplit(s[1..], sep);
      if s[0] == sep {
        assert Split(s, sep) == [""] + rest;
        assert ([""] + rest)[1..] == rest;
      } else {
        var parts := [[s[0]] + rest[0]] + rest[1..];
        assert Split(s, sep) == parts;
        if |rest| == 1 {
          assert rest == [rest[0]];
        } else {
          assert parts[1..] == rest[1..];
          assert Join(rest, [sep]) == rest[0] + [sep] + Join(rest[1..], [sep]);
        }
      }
    }
  }

  /** A string without the separator splits into exactly one part, itself. */
  lemma {:induction false} SplitWithoutSeparator(s: string, sep: char)
    requires sep !in s
    ensures Split(s, sep) == [s]
  {
    if s != [] {
      SplitWithoutSeparator(s[1..], sep);
      assert [s[0]] + s[1..] == s;
    }
  }

  // ---------------------------------------------------------------- numbers in template literals

  function DigitChar(d: nat): char
    requires d < 10
  {
    ('0' as int + d) as char
  }

  /** The decimal rendering of a non-negative integer, as `${n}` produces it. */
  function Decimal(n: nat): (r: string)
    ensures |r| >= 1
    ensures forall i :: 0 <= i < |r| ==> IsDigit(r[i])
    ensures n >= 10 ==> |r| >= 2
  {
    if n < 10 then [DigitChar(n)] else Decimal(n / 10) + [DigitChar(n % 10)]
  }

  /** A rendered number holds no character other than a digit: no '/', '_', '.' or space. */
  lemma DecimalHasOnlyDigits(n: nat, c: char)
    requires !IsDigit(c)
    ensures c !in Decimal(n)
  {
    var d := Decimal(n);
    assert forall i :: 0 <= i < |d| ==> d[i] != c by {
      forall i | 0 <= i < |d| ensures d[i] != c {
        assert IsDigit(d[i]);
      }
    }
  }

  /** Different numbers render differently. */
  lemma {:induction false} DecimalInjective(a: nat, b: nat)
    requires Decimal(a) == Decimal(b)
    ensures a == b
  {
    var da, db := Decimal(a), Decimal(b);
    assert da[|da| - 1] == db[|db| - 1];
    if a >= 10 && b >= 10 {
      assert Decimal(a / 10) == da[..|da| - 1] == db[..|db| - 1] == Decimal(b / 10);
      DecimalInjective(a / 10, b / 10);
    }
  }
}
