/**
 * Text helpers of index.js: JavaScript's whitespace class, substring search
 * (`String.prototype.includes`), the `trim` package, `formatText`, a
 * `/\d+/` digit run and `parseInt` of a digit string.
 */
module Text {
  import opened Wrappers

  /** The characters JavaScript's `\s` matches (and String.prototype.trim strips). */
  predicate IsSpace(c: char) {
    c == ' ' || c == '\t' || c == '\n' || c == '\r' || c == '\U{000B}' || c == '\U{000C}'
    || c == '\U{00A0}' || c == '\U{1680}' || ('\U{2000}' <= c <= '\U{200A}')
    || c == '\U{2028}' || c == '\U{2029}' || c == '\U{202F}' || c == '\U{205F}'
    || c == '\U{3000}' || c == '\U{FEFF}'
  }

  predicate IsLineBreak(c: char) {
    c == '\n' || c == '\r'
  }

  /** `\d`: an ASCII decimal digit. */
  predicate IsDigit(c: char) {
    '0' <= c <= '9'
  }

  /** No carriage return and no line feed anywhere in `s`. */
  predicate NoLineBreaks(s: string) {
    forall i :: 0 <= i < |s| ==> !IsLineBreak(s[i])
  }

  /** `s` neither starts nor ends with whitespace. */
  predicate Trimmed(s: string) {
    s == [] || (!IsSpace(s[0]) && !IsSpace(s[|s| - 1]))
  }

  predicate AllDigits(s: string) {
    forall i :: 0 <= i < |s| ==> IsDigit(s[i])
  }

  // ---------------------------------------------------------------------
  // Substring search

  /** `t` occurs in `s` at offset `i`. */
  predicate OccursAt(s: string, t: string, i: int) {
    0 <= i && i + |t| <= |s| && s[i..i + |t|] == t
  }

  /** `s.includes(t)`. */
  predicate Contains(s: string, t: string)
    decreases |s|
  {
    (|t| <= |s| && s[..|t|] == t) || (|s| > 0 && Contains(s[1..], t))
  }

  /** `Contains` finds `t` exactly when `t` occurs at some offset of `s`. */
  lemma {:induction false} ContainsOccurs(s: string, t: string)
    ensures Contains(s, t) <==> exists i :: OccursAt(s, t, i)
    decreases |s|
  {
    if |t| <= |s| && s[..|t|] == t {
      assert OccursAt(s, t, 0);
    } else if |s| > 0 {
      ContainsOccurs(s[1..], t);
      if Contains(s[1..], t) {
        var i :| OccursAt(s[1..], t, i);
        assert s[i + 1..i + 1 + |t|] == s[1..][i..i + |t|];
        assert OccursAt(s, t, i + 1);
      } else {
        forall i | 0 < i && OccursAt(s, t, i)
          ensures OccursAt(s[1..], t, i - 1)
        {
          assert s[i..i + |t|] == s[1..][i - 1..i - 1 + |t|];
        }
      }
    } else {
      assert forall i :: !OccursAt(s, t, i);
    }
  }

  /** `s.indexOf(t)`: the leftmost offset at which `t` occurs in `s`, or `|s| + 1` when it does not occur. */
  function IndexOf(s: string, t: string): (j: nat)
    ensures j <= |s| + 1
    ensures forall k :: 0 <= k < j && k <= |s| ==> !OccursAt(s, t, k)
    ensures j <= |s| ==> OccursAt(s, t, j)
  {
    IndexFrom(s, t, 0)
  }

  function IndexFrom(s: string, t: string, i: nat): (j: nat)
    requires i <= |s|
    ensures i <= j <= |s| + 1
    ensures forall k :: i <= k < j && k <= |s| ==> !OccursAt(s, t, k)
    ensures j <= |s| ==> OccursAt(s, t, j)
    decreases |s| - i
  {
    if OccursAt(s, t, i) then i
    else if i == |s| then |s| + 1
    else IndexFrom(s, t, i + 1)
  }

  /** The characters `.` does not match in a regular expression: the JavaScript line terminators. */
  predicate IsLineTerminator(c: char) {
    c == '\n' || c == '\r' || c == '\U{2028}' || c == '\U{2029}'
  }

  /** Length of the front of `s` before its first line terminator: what a greedy `.*` takes. */
  function LineLength(s: string): (k: nat)
    ensures k <= |s|
    ensures forall i :: 0 <= i < k ==> !IsLineTerminator(s[i])
    ensures k < |s| ==> IsLineTerminator(s[k])
  {
    if s == [] || IsLineTerminator(s[0]) then 0 else 1 + LineLength(s[1..])
  }

  // ---------------------------------------------------------------------
  // trim and formatText

  /** Drops the leading whitespace. */
  function TrimStart(s: string): (r: string)
    ensures |r| <= |s| && r == s[|s| - |r|..]
    ensures r == [] || !IsSpace(r[0])
    ensures forall i :: 0 <= i < |s| - |r| ==> IsSpace(s[i])
  {
    if s != [] && IsSpace(s[0]) then TrimStart(s[1..]) else s
  }

  /** Drops the trailing whitespace. */
  function TrimEnd(s: string): (r: string)
    ensures |r| <= |s| && r == s[..|r|]
    ensures r == [] || !IsSpace(r[|r| - 1])
    ensures forall i :: |r| <= i < |s| ==> IsSpace(s[i])
  {
    if s != [] && IsSpace(s[|s| - 1]) then TrimEnd(s[..|s| - 1]) else s
  }

  /** The `trim` package: leading and trailing whitespace removed, the middle untouched. */
  function Trim(s: string): (r: string)
    ensures Trimmed(r)
    ensures exists k :: OccursAt(s, r, k)
  {
    var a := TrimStart(s);
    var b := TrimEnd(a);
    assert OccursAt(s, b, |s| - |a|);
    b
  }

  lemma TrimOfTrimmed(s: string)
    requires Trimmed(s)
    ensures Trim(s) == s
  {
  }

  /** `str.replace(/\r?\n|\r/g, " ")`: every CRLF, LF and CR becomes one space. */
  function ReplaceLineBreaks(s: string): (r: string)
    ensures NoLineBreaks(r)
    ensures |r| <= |s|
    decreases |s|
  {
    if s == [] then []
    else if s[0] == '\r' && |s| > 1 && s[1] == '\n' then [' '] + ReplaceLineBreaks(s[2..])
    else if IsLineBreak(s[0]) then [' '] + ReplaceLineBreaks(s[1..])
    else [s[0]] + ReplaceLineBreaks(s[1..])
  }

  /** Text without line breaks has nothing to replace. */
  lemma {:induction false} ReplaceLineBreaksNoop(s: string)
    requires NoLineBreaks(s)
    ensures ReplaceLineBreaks(s) == s
    decreases |s|
  {
    if s != [] {
      ReplaceLineBreaksNoop(s[1..]);
    }
  }

  /** A leading CRLF becomes one space. */
  lemma ReplaceCrLf(rest: string)
    ensures ReplaceLineBreaks("\r\n" + rest) == " " + ReplaceLineBreaks(rest)
  {
    assert ("\r\n" + rest)[2..] == rest;
  }

  /** A leading character that does not start a CRLF is replaced on its own. */
  lemma ReplaceCons(c: char, rest: string)
    requires !(c == '\r' && |rest| > 0 && rest[0] == '\n')
    ensures ReplaceLineBreaks([c] + rest) == [if IsLineBreak(c) then ' ' else c] + ReplaceLineBreaks(rest)
  {
    assert ([c] + rest)[1..] == rest;
  }

  lemma ConcatAssoc(c: string, p: string, q: string)
    ensures c + (p + " " + q) == (c + p) + " " + q
  {
  }

  /** A CRLF pair becomes a single space, wherever it stands. */
  lemma {:induction false} CrLfIsOneSpace(x: string, y: string)
    ensures ReplaceLineBreaks(x + "\r\n" + y) == ReplaceLineBreaks(x) + " " + ReplaceLineBreaks(y)
    decreases |x|
  {
    if x == [] {
      assert x + "\r\n" + y == "\r\n" + y;
      ReplaceCrLf(y);
    } else {
      var n := if x[0] == '\r' && |x| > 1 && x[1] == '\n' then 2 else 1;
      var head, rest := x[..n], x[n..];
      var a := rest + "\r\n" + y;
      assert x == head + rest;
      assert x + "\r\n" + y == head + a;
      var c := if n == 2 then " " else [if IsLineBreak(x[0]) then ' ' else x[0]];
      if n == 2 {
        assert head == "\r\n";
        ReplaceCrLf(a);
        ReplaceCrLf(rest);
      } else {
        assert head == [x[0]];
        assert rest == [] ==> a[0] == '\r';
        ReplaceCons(x[0], a);
        ReplaceCons(x[0], rest);
      }
      assert ReplaceLineBreaks(head + a) == c + ReplaceLineBreaks(a);
      assert ReplaceLineBreaks(x) == c + ReplaceLineBreaks(rest);
      CrLfIsOneSpace(rest, y);
      ConcatAssoc(c, ReplaceLineBreaks(rest), ReplaceLineBreaks(y));
    }
  }

  /** `formatText`: a falsy argument gives "", anything else has its line breaks turned into spaces and is trimmed. */
  function FormatText(s: string): (r: string)
    ensures NoLineBreaks(r) && Trimmed(r)
    ensures s == "" ==> r == ""
  {
    if s == "" then "" else Trim(ReplaceLineBreaks(s))
  }

  /** Formatting is idempotent. */
  lemma FormatTextIdempotent(s: string)
    ensures FormatText(FormatText(s)) == FormatText(s)
  {
    var f := FormatText(s);
    if f != "" {
      ReplaceLineBreaksNoop(f);
      TrimOfTrimmed(f);
    }
  }

  /** ASCII `toLowerCase` of one character. */
  function ToLower(c: char): char {
    if 'A' <= c <= 'Z' then (c as int + 32) as char else c
  }

  /** ASCII `toUpperCase` of one character. */
  function ToUpper(c: char): char {
    if 'a' <= c <= 'z' then (c as int - 32) as char else c
  }

  /** `s` equals the lower-case `t` ignoring ASCII case: a case-insensitive regular-expression literal. */
  predicate EqualsIgnoreCase(s: string, t: string) {
    |s| == |t| && forall i :: 0 <= i < |s| ==> ToLower(s[i]) == t[i]
  }

  // ---------------------------------------------------------------------
  // Decimal numbers

  function DigitValue(c: char): (d: nat)
    requires IsDigit(c)
    ensures d < 10
  {
    (c as int - '0' as int) as nat
  }

  function DigitChar(d: nat): (c: char)
    requires d < 10
    ensures IsDigit(c) && DigitValue(c) == d
  {
    ('0' as int + d) as char
  }

  /** `parseInt` of a string of decimal digits. */
  function ParseDigits(s: string): nat
    requires AllDigits(s)
  {
    if s == [] then 0 else 10 * ParseDigits(s[..|s| - 1]) + DigitValue(s[|s| - 1])
  }

  /** `n.toString()` for a natural number. */
  function ShowNat(n: nat): (r: string)
    ensures r != [] && AllDigits(r)
  {
    if n < 10 then [DigitChar(n)] else ShowNat(n / 10) + [DigitChar(n % 10)]
  }

  /** Printing a number and parsing it back gives the number. */
  lemma {:induction false} ParseShowNat(n: nat)
    ensures ParseDigits(ShowNat(n)) == n
  {
    var r := ShowNat(n);
    if n >= 10 {
      ParseShowNat(n / 10);
      assert r[..|r| - 1] == ShowNat(n / 10);
    }
  }

  /** Different numbers print differently. */
  lemma ShowNatInjective(m: nat, n: nat)
    requires ShowNat(m) == ShowNat(n)
    ensures m == n
  {
    ParseShowNat(m);
    ParseShowNat(n);
  }

  /** Length of the run of digits at the front of `s`. */
  function DigitRunLength(s: string): (k: nat)
    ensures k <= |s| && AllDigits(s[..k])
    ensures k < |s| ==> !IsDigit(s[k])
  {
    if s != [] && IsDigit(s[0]) then
      var k := 1 + DigitRunLength(s[1..]);
      assert s[..k] == [s[0]] + s[1..][..k - 1];
      k
    else 0
  }

  /** Length of the run of whitespace at the front of `s`. */
  function SpaceRunLength(s: string): (k: nat)
    ensures k <= |s|
    ensures forall i :: 0 <= i < k ==> IsSpace(s[i])
    ensures k < |s| ==> !IsSpace(s[k])
  {
    if s != [] && IsSpace(s[0]) then 1 + SpaceRunLength(s[1..]) else 0
  }

  /** Index of the first digit of `s`, or `|s|` when it has none. */
  function FirstDigitIndex(s: string): (i: nat)
    ensures i <= |s|
    ensures forall j :: 0 <= j < i ==> !IsDigit(s[j])
    ensures i < |s| ==> IsDigit(s[i])
  {
    if s == [] || IsDigit(s[0]) then 0 else 1 + FirstDigitIndex(s[1..])
  }

  /** `/\d+/.exec(s)`: the leftmost maximal run of digits, if there is one. */
  function FirstDigitRun(s: string): (r: Option<string>)
    ensures r.Some? ==> r.value != [] && AllDigits(r.value)
  {
    var i := FirstDigitIndex(s);
    if i == |s| then None
    else
      var k := DigitRunLength(s[i..]);
      assert s[i..i + k] == s[i..][..k];
      Some(s[i..i + k])
  }
}
