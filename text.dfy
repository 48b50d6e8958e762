/**
 * The handful of Python string operations the collector applies to the
 * text it reads from /proc: `str.startswith`, `str.split(sep)`,
 * `str.split()`, `str.strip()`, `str.isdigit()`, the `in` substring test,
 * string repetition, and the `int()`/`float()` conversions of decimal text.
 * Text is a sequence of characters; only the ASCII whitespace and the ASCII
 * digits are recognised.
 */
module Text {

  /** The characters `str.split()` and `str.strip()` treat as whitespace (ASCII subset). */
  predicate IsSpace(c: char) {
    c == ' ' || c == '\t' || c == '\n' || c == '\r' || c == '\U{B}' || c == '\U{C}'
  }

  predicate IsDigitChar(c: char) {
    '0' <= c <= '9'
  }

  /** `s.startswith(p)` */
  predicate StartsWith(s: string, p: string) {
    |p| <= |s| && s[..|p|] == p
  }

  /** `sub in s` on strings: `sub` occurs somewhere in `s` (the empty string occurs everywhere). */
  predicate Contains(s: string, sub: string)
    decreases |s|
  {
    StartsWith(s, sub) || (|s| > 0 && Contains(s[1..], sub))
  }

  /** `s.split(sep)` with an explicit one-character separator: empty fields are kept. */
  function SplitOn(s: string, sep: char): (parts: seq<string>)
    ensures |parts| >= 1
    ensures forall k :: 0 <= k < |parts| ==> sep !in parts[k]
    ensures sep in s ==> |parts| >= 2
    ensures sep !in s ==> parts == [s]
    decreases |s|
  {
    if |s| == 0 then [""]
    else
      var rest := SplitOn(s[1..], sep);
      if s[0] == sep then
        assert forall k :: 1 <= k < |rest| + 1 ==> ([""] + rest)[k] == rest[k - 1];
        [""] + rest
      else
        assert sep in s ==> sep in s[1..] by {
          if sep in s {
            var j :| 0 <= j < |s| && s[j] == sep;
            assert j > 0 && s[1..][j - 1] == sep;
          }
        }
        var first := [s[0]] + rest[0];
        assert sep !in first;
        assert sep !in s ==> rest == [s[1..]] && first == s;
        [first] + rest[1..]
  }

  /** Joins fields back with the separator, the inverse of `SplitOn`. */
  function JoinWith(parts: seq<string>, sep: char): string
    requires |parts| >= 1
  {
    if |parts| == 1 then parts[0] else parts[0] + [sep] + JoinWith(parts[1..], sep)
  }

  /** Splitting loses nothing: joining the fields with the separator gives the text back. */
  lemma {:induction false} SplitJoin(s: string, sep: char)
    ensures JoinWith(SplitOn(s, sep), sep) == s
    decreases |s|
  {
    if |s| > 0 {
      SplitJoin(s[1..], sep);
      var rest := SplitOn(s[1..], sep);
      if s[0] != sep {
        if |rest| > 1 {
          assert JoinWith(rest, sep) == rest[0] + [sep] + JoinWith(rest[1..], sep);
          assert s == [s[0]] + s[1..];
        } else {
          assert s == [s[0]] + s[1..];
        }
      } else {
        assert s == [s[0]] + s[1..];
      }
    }
  }

  /** A field free of the separator splits off as the first field. */
  lemma {:induction false} SplitOnAfterField(a: string, sep: char, rest: string)
    requires sep !in a
    ensures SplitOn(a + [sep] + rest, sep) == [a] + SplitOn(rest, sep)
    decreases |a|
  {
    if |a| > 0 {
      SplitOnAfterField(a[1..], sep, rest);
      var whole := a + [sep] + rest;
      assert whole[0] == a[0] && whole[0] != sep;
      assert whole[1..] == a[1..] + [sep] + rest;
      assert a == [a[0]] + a[1..];
    } else {
      assert (a + [sep] + rest)[1..] == rest;
    }
  }

  /** The lines of a text file, as iterating over the open file yields them (without the newline). */
  function Lines(s: string): (lines: seq<string>)
    ensures |lines| >= 1
    ensures forall k :: 0 <= k < |lines| ==> '\n' !in lines[k]
  {
    SplitOn(s, '\n')
  }

  /**
   * The text between the first and second ':' of a line, `line.split(":")[1]`.
   * Every caller has checked a key ending in ':' first, so the field exists;
   * a line without ':' gives the empty text here.
   */
  function AfterColon(line: string): (field: string)
    ensures ':' !in field
  {
    var parts := SplitOn(line, ':');
    if |parts| >= 2 then parts[1] else ""
  }

  /** Removes leading whitespace. */
  function TrimLeft(s: string): (t: string)
    ensures |t| <= |s|
    ensures t == [] || !IsSpace(t[0])
    ensures forall k :: 0 <= k < |s| - |t| ==> IsSpace(s[k])
    decreases |s|
  {
    if |s| > 0 && IsSpace(s[0]) then TrimLeft(s[1..]) else s
  }

  /** What `TrimLeft` keeps is a suffix of its input. */
  lemma {:induction false} TrimLeftIsSuffix(s: string)
    ensures TrimLeft(s) == s[|s| - |TrimLeft(s)|..]
    decreases |s|
  {
    if |s| > 0 && IsSpace(s[0]) {
      TrimLeftIsSuffix(s[1..]);
      assert s[1..][|s| - 1 - |TrimLeft(s)|..] == s[|s| - |TrimLeft(s)|..];
    }
  }

  /** Removes trailing whitespace. */
  function TrimRight(s: string): (t: string)
    ensures |t| <= |s| && t == s[..|t|]
    ensures t == [] || !IsSpace(t[|t| - 1])
    ensures forall k :: |t| <= k < |s| ==> IsSpace(s[k])
    decreases |s|
  {
    if |s| > 0 && IsSpace(s[|s| - 1]) then TrimRight(s[..|s| - 1]) else s
  }

  /** `s.strip()`: the text with whitespace removed at both ends. */
  function Strip(s: string): (t: string)
    ensures |t| <= |s|
    ensures t == [] || (!IsSpace(t[0]) && !IsSpace(t[|t| - 1]))
    ensures exists i :: TrimmedAt(s, t, i)
    ensures (forall k :: 0 <= k < |s| ==> !IsSpace(s[k])) ==> t == s
  {
    var l := TrimLeft(s);
    TrimLeftIsSuffix(s);
    var i := |s| - |l|;
    var t := TrimRight(l);
    assert t == s[i..i + |t|];
    assert forall k :: i + |t| <= k < |s| ==> s[k] == l[k - i];
    assert TrimmedAt(s, t, i);
    t
  }

  /** `t` is the part of `s` starting at `i`, and everything of `s` around it is whitespace. */
  predicate TrimmedAt(s: string, t: string, i: nat) {
    && i + |t| <= |s| && t == s[i..i + |t|]
    && (forall k :: 0 <= k < i ==> IsSpace(s[k]))
    && (forall k :: i + |t| <= k < |s| ==> IsSpace(s[k]))
  }

  /** A text with no whitespace character. */
  predicate NoSpace(w: string) {
    forall k :: 0 <= k < |w| ==> !IsSpace(w[k])
  }

  /** The longest prefix of `s` that holds no whitespace. */
  function TakeWord(s: string): (w: string)
    ensures |w| <= |s| && w == s[..|w|]
    ensures |s| > 0 && !IsSpace(s[0]) ==> |w| >= 1
    ensures NoSpace(w)
    ensures |w| < |s| ==> IsSpace(s[|w|])
    decreases |s|
  {
    if |s| == 0 || IsSpace(s[0]) then [] else [s[0]] + TakeWord(s[1..])
  }

  /** `s.split()`: the maximal runs of non-whitespace characters, in order. */
  function Words(s: string): (ws: seq<string>)
    ensures forall k :: 0 <= k < |ws| ==> |ws[k]| > 0 && NoSpace(ws[k])
    decreases |s|
  {
    var t := TrimLeft(s);
    if t == [] then []
    else
      var w := TakeWord(t);
      var after := t[|w|..];
      assert |after| < |s|;
      [w] + Words(after)
  }

  /** `s.split()[k]`, or the empty text when there are at most `k` words. */
  function NthWord(s: string, k: nat): (w: string)
    ensures NoSpace(w)
    decreases |s|
  {
    var t := TrimLeft(s);
    if t == [] then ""
    else
      var w := TakeWord(t);
      if k == 0 then w else NthWord(t[|w|..], k - 1)
  }

  /** `NthWord` is indexing into `s.split()`. */
  lemma {:induction false} NthWordIsWordsIndex(s: string, k: nat)
    ensures k < |Words(s)| ==> NthWord(s, k) == Words(s)[k]
    ensures k >= |Words(s)| ==> NthWord(s, k) == ""
    decreases |s|
  {
    var t := TrimLeft(s);
    if t == [] {
      assert Words(s) == [] && NthWord(s, k) == "";
    } else {
      var w := TakeWord(t);
      var after := t[|w|..];
      assert Words(s) == [w] + Words(after);
      if k == 0 {
        assert NthWord(s, k) == w == Words(s)[0];
      } else {
        assert NthWord(s, k) == NthWord(after, k - 1);
        assert |Words(s)| == |Words(after)| + 1;
        NthWordIsWordsIndex(after, k - 1);
        if k < |Words(s)| {
          assert Words(s)[k] == Words(after)[k - 1];
        }
      }
    }
  }

  /** A text without whitespace is one word, or no word when it is empty. */
  lemma {:induction false} WordsOfWord(s: string)
    requires NoSpace(s)
    ensures Words(s) == if s == [] then [] else [s]
  {
    if s != [] {
      assert !IsSpace(s[0]);
      assert TrimLeft(s) == s;
      var w := TakeWord(s);
      assert |w| == |s|;
      assert w == s;
      assert TrimLeft(s[|w|..]) == [];
    }
  }

  /** `s.isdigit()` on ASCII text: non-empty and every character a digit. */
  predicate IsDigits(s: string) {
    |s| > 0 && forall k :: 0 <= k < |s| ==> IsDigitChar(s[k])
  }

  function DigitValue(c: char): (d: nat)
    requires IsDigitChar(c)
    ensures d < 10
  {
    (c as int - '0' as int) as nat
  }

  function DigitChar(d: nat): (c: char)
    requires d < 10
    ensures IsDigitChar(c) && DigitValue(c) == d
  {
    ('0' as int + d) as char
  }

  /** The value of a run of decimal digits (`int()` of a digit string). */
  function ParseNat(s: string): nat
    requires forall k :: 0 <= k < |s| ==> IsDigitChar(s[k])
    decreases |s|
  {
    if |s| == 0 then 0 else ParseNat(s[..|s| - 1]) * 10 + DigitValue(s[|s| - 1])
  }

  /** Decimal rendering of a natural number (`str(n)` / the `{pid}` of an f-string). */
  function NatToString(n: nat): (s: string)
    ensures IsDigits(s)
    ensures |s| >= 1
    decreases n
  {
    if n < 10 then [DigitChar(n)] else NatToString(n / 10) + [DigitChar(n % 10)]
  }

  /** Rendering then parsing gives back the number. */
  lemma {:induction false} ParseNatToString(n: nat)
    ensures ParseNat(NatToString(n)) == n
    decreases n
  {
    var s := NatToString(n);
    if n >= 10 {
      ParseNatToString(n / 10);
      assert s[..|s| - 1] == NatToString(n / 10);
    }
  }

  /** Distinct numbers render as distinct text. */
  lemma NatToStringInjective(m: nat, n: nat)
    requires NatToString(m) == NatToString(n)
    ensures m == n
  {
    ParseNatToString(m);
    ParseNatToString(n);
  }

  /** Text `int()` accepts here: an optional sign followed by decimal digits. */
  predicate IsIntText(s: string) {
    if |s| > 0 && (s[0] == '-' || s[0] == '+') then IsDigits(s[1..]) else IsDigits(s)
  }

  /** `int(s)` of an integer text. */
  function ParseInt(s: string): (v: int)
    requires IsIntText(s)
    ensures IsDigits(s) ==> v == ParseNat(s)
  {
    if s[0] == '-' then 0 - ParseNat(s[1..])
    else if s[0] == '+' then ParseNat(s[1..])
    else ParseNat(s)
  }

  /** Text `float()` accepts here: an optional sign, digits, and an optional fraction. */
  predicate IsDecimalText(s: string) {
    var u := if |s| > 0 && (s[0] == '-' || s[0] == '+') then s[1..] else s;
    var parts := SplitOn(u, '.');
    (|parts| == 1 && IsDigits(u)) || (|parts| == 2 && IsDigits(parts[0]) && IsDigits(parts[1]))
  }

  function Pow10(k: nat): (p: nat)
    ensures p >= 1
  {
    if k == 0 then 1 else 10 * Pow10(k - 1)
  }

  /** `float(s)` of a decimal text, as an exact real. */
  function ParseDecimal(s: string): (v: real)
    requires IsDecimalText(s)
    ensures IsDigits(s) ==> v == ParseNat(s) as real
  {
    var neg := s[0] == '-';
    var u := if s[0] == '-' || s[0] == '+' then s[1..] else s;
    var parts := SplitOn(u, '.');
    var mag :=
      if |parts| == 1 then ParseNat(u) as real
      else ParseNat(parts[0]) as real + ParseNat(parts[1]) as real / Pow10(|parts[1]|) as real;
    if neg then -mag else mag
  }

  /** `s.replace(from, to)` for one-character texts. */
  function ReplaceChar(s: string, from: char, to: char): (t: string)
    ensures |t| == |s|
    ensures forall k :: 0 <= k < |s| ==> t[k] == if s[k] == from then to else s[k]
  {
    if s == [] then [] else [if s[0] == from then to else s[0]] + ReplaceChar(s[1..], from, to)
  }

  /** `c * n` for a one-character string `c`: `n` copies, none when `n <= 0`. */
  function Repeat(c: char, n: int): (s: string)
    ensures |s| == if n <= 0 then 0 else n
    ensures forall k :: 0 <= k < |s| ==> s[k] == c
    decreases n
  {
    if n <= 0 then [] else [c] + Repeat(c, n - 1)
  }
}
