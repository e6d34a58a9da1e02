/**
 * The string primitives of JavaScript that the plugin's parsers use:
 * `trim`, `split` on one separator character, `split(/\r?\n/)`, `join`,
 * `startsWith`, the decimal rendering of a count and `parseInt(s, 10)`.
 * Strings are sequences of Unicode scalar values; JavaScript's are
 * sequences of UTF-16 code units, which differ only outside the Basic
 * Multilingual Plane.
 */
module Text {
  import opened Wrappers

  /** JavaScript's WhiteSpace and LineTerminator code points, which `trim` removes. */
  predicate IsJsWhitespace(c: char) {
    || c == '\t' || c == '\n' || c == '\r' || c == '\U{000B}' || c == '\U{000C}'
    || c == ' ' || c == '\U{00A0}' || c == '\U{1680}'
    || ('\U{2000}' <= c <= '\U{200A}')
    || c == '\U{2028}' || c == '\U{2029}' || c == '\U{202F}' || c == '\U{205F}'
    || c == '\U{3000}' || c == '\U{FEFF}'
  }

  predicate AllWhitespace(s: string) {
    forall i :: 0 <= i < |s| ==> IsJsWhitespace(s[i])
  }

  /** The number of white-space characters `s` starts with. */
  function LeadingBlanks(s: string): (n: nat)
    ensures n <= |s| && AllWhitespace(s[..n])
    ensures n == |s| || !IsJsWhitespace(s[n])
  {
    if s != [] && IsJsWhitespace(s[0]) then
      var n := LeadingBlanks(s[1..]);
      assert s[..n + 1] == [s[0]] + s[1..][..n];
      n + 1
    else 0
  }

  /** The number of white-space characters `s` ends with. */
  function TrailingBlanks(s: string): (n: nat)
    ensures n <= |s| && AllWhitespace(s[|s| - n..])
    ensures n == |s| || !IsJsWhitespace(s[|s| - n - 1])
  {
    if s != [] && IsJsWhitespace(s[|s| - 1]) then
      var n := TrailingBlanks(s[..|s| - 1]);
      assert s[|s| - n - 1..] == s[..|s| - 1][|s| - 1 - n..] + [s[|s| - 1]];
      n + 1
    else 0
  }

  /** `s.trimStart()` */
  function TrimStart(s: string): (r: string)
    ensures |r| <= |s| && r == s[|s| - |r|..]
    ensures r == [] || !IsJsWhitespace(r[0])
    ensures AllWhitespace(s[..|s| - |r|])
  {
    s[LeadingBlanks(s)..]
  }

  /** `s.trimEnd()` */
  function TrimEnd(s: string): (r: string)
    ensures |r| <= |s| && r == s[..|r|]
    ensures r == [] || !IsJsWhitespace(r[|r| - 1])
    ensures AllWhitespace(s[|r|..])
  {
    s[..|s| - TrailingBlanks(s)]
  }

  /** `s.trim()`: `s` without its leading and trailing white space. */
  function Trim(s: string): (r: string)
    ensures |r| <= |s|
    ensures r == [] || (!IsJsWhitespace(r[0]) && !IsJsWhitespace(r[|r| - 1]))
  {
    if s != [] && IsJsWhitespace(s[0]) then Trim(s[1..]) else TrimEnd(s)
  }

  /** What `trim` keeps is the slice of `s` that follows its leading white space. */
  lemma TrimIsSlice(s: string)
    ensures var i, r := |s| - |TrimStart(s)|, Trim(s);
      i + |r| <= |s| && r == s[i..i + |r|]
  {
    var t := TrimStart(s);
    PrefixOfSuffix(s, t, TrimEnd(t));
    TrimUnfolds(s);
  }

  /** Only white space surrounds what `trim` keeps: nothing else is removed. */
  lemma TrimDropsWhitespace(s: string)
    ensures var i, r := |s| - |TrimStart(s)|, Trim(s);
      i + |r| <= |s| && AllWhitespace(s[..i]) && AllWhitespace(s[i + |r|..])
  {
    var t := TrimStart(s);
    PrefixOfSuffix(s, t, TrimEnd(t));
    SameWhitespace(t[|TrimEnd(t)|..], s[|s| - |t| + |TrimEnd(t)|..]);
    TrimUnfolds(s);
  }

  /** `trim` is `trimStart` followed by `trimEnd`. */
  lemma {:induction false} TrimUnfolds(s: string)
    ensures Trim(s) == TrimEnd(TrimStart(s))
  {
    if s != [] && IsJsWhitespace(s[0]) {
      TrimUnfolds(s[1..]);
      assert TrimStart(s) == TrimStart(s[1..]);
    }
  }

  /** A prefix `r` of a suffix `t` of `s` is a slice of `s`, and so is the rest of `t`. */
  lemma PrefixOfSuffix(s: string, t: string, r: string)
    requires |t| <= |s| && t == s[|s| - |t|..] && |r| <= |t| && r == t[..|r|]
    ensures var i := |s| - |t|;
      i + |r| <= |s| && r == s[i..i + |r|] && t[|r|..] == s[i + |r|..]
  {
  }

  lemma SameWhitespace(a: string, b: string)
    requires a == b && AllWhitespace(a)
    ensures AllWhitespace(b)
  {
  }

  /** Only white space remains of an all-white-space string after `trimStart`. */
  lemma {:induction false} TrimStartOfBlank(s: string)
    requires AllWhitespace(s)
    ensures TrimStart(s) == []
  {
    if s != [] {
      TrimStartOfBlank(s[1..]);
    }
  }

  /** A string is blank (`!s.trim()`) exactly when it is all white space. */
  lemma TrimEmptyIffBlank(s: string)
    ensures Trim(s) == [] <==> AllWhitespace(s)
  {
    if AllWhitespace(s) {
      TrimStartOfBlank(s);
      TrimUnfolds(s);
    } else {
      var i :| 0 <= i < |s| && !IsJsWhitespace(s[i]);
      TrimOfNonBlank(s, i);
    }
  }

  /** A string with a character other than white space keeps one after `trim`. */
  lemma TrimOfNonBlank(s: string, i: nat)
    requires i < |s| && !IsJsWhitespace(s[i])
    ensures Trim(s) != []
  {
    var t := TrimStart(s);
    var lead := |s| - |t|;
    assert forall m :: 0 <= m < lead ==> s[..lead][m] == s[m];
    assert lead <= i;
    assert t[i - lead] == s[i];
    assert t[0..] == t;
    TrimUnfolds(s);
  }

  /** A string that does not start or end with white space is its own trim. */
  lemma TrimOfTrimmed(s: string)
    requires s == [] || (!IsJsWhitespace(s[0]) && !IsJsWhitespace(s[|s| - 1]))
    ensures Trim(s) == s
  {
  }

  /** Trimming twice is trimming once. */
  lemma TrimIdempotent(s: string)
    ensures Trim(Trim(s)) == Trim(s)
  {
    TrimOfTrimmed(Trim(s));
  }

  /** `s.split(sep)` for a one-character separator: the pieces between separators, at least one. */
  function Split(s: string, sep: char): (r: seq<string>)
    ensures |r| >= 1
    ensures forall k :: 0 <= k < |r| ==> sep !in r[k]
  {
    if s == [] then [""]
    else
      var rest := Split(s[1..], sep);
      if s[0] == sep then [""] + rest
      else [[s[0]] + rest[0]] + rest[1..]
  }

  /** `parts.join(sep)` */
  function Join(parts: seq<string>, sep: string): (r: string)
  {
    if parts == [] then ""
    else if |parts| == 1 then parts[0]
    else parts[0] + sep + Join(parts[1..], sep)
  }

  /** Joining the pieces of a split with the same separator gives back the string. */
  lemma {:induction false} JoinSplit(s: string, sep: char)
    ensures Join(Split(s, sep), [sep]) == s
  {
    if s != [] {
      var rest := Split(s[1..], sep);
      JoinSplit(s[1..], sep);
      if s[0] != sep {
        if |rest| == 1 {
        } else {
          assert ([[s[0]] + rest[0]] + rest[1..])[1..] == rest[1..];
          assert Join(rest, [sep]) == rest[0] + [sep] + Join(rest[1..], [sep]);
        }
      }
    }
  }

  /** Splitting on `sep` and joining with `with` replaces every `sep` by `with`. */
  lemma {:induction false} SplitJoinReplaces(s: string, sep: char, with: char)
    ensures |Join(Split(s, sep), [with])| == |s|
    ensures forall i :: 0 <= i < |s| ==>
      Join(Split(s, sep), [with])[i] == if s[i] == sep then with else s[i]
  {
    if s != [] {
      var rest := Split(s[1..], sep);
      SplitJoinReplaces(s[1..], sep, with);
      var j := Join(rest, [with]);
      if s[0] == sep {
        assert Join(Split(s, sep), [with]) == [with] + j by {
          if |rest| == 1 {
            assert Join([""] + rest, [with]) == "" + [with] + Join(rest, [with]);
          }
        }
        assert forall i :: 1 <= i < |s| ==> s[i] == s[1..][i - 1];
      } else {
        assert Join(Split(s, sep), [with]) == [s[0]] + j by {
          if |rest| > 1 {
            assert ([[s[0]] + rest[0]] + rest[1..])[1..] == rest[1..];
            assert j == rest[0] + [with] + Join(rest[1..], [with]);
          }
        }
        assert forall i :: 1 <= i < |s| ==> s[i] == s[1..][i - 1];
      }
    }
  }

  /** One line of `s.split(/\r?\n/)`: a piece between two `\n`, without the `\r` before the `\n`. */
  function DropTrailingCR(piece: string): string {
    if piece != [] && piece[|piece| - 1] == '\r' then piece[..|piece| - 1] else piece
  }

  /**
   * `s.split(/\r?\n/)`: the separator is a `\n` together with one `\r` right before it,
   * so the lines are the `\n`-pieces, each but the last without one trailing `\r`;
   * a `\r` elsewhere, and one at the very end of `s`, stays.
   */
  function SplitLines(s: string): (r: seq<string>)
    ensures |r| == |Split(s, '\n')| && |r| >= 1
    ensures forall k :: 0 <= k < |r| - 1 ==> r[k] == DropTrailingCR(Split(s, '\n')[k])
    ensures r[|r| - 1] == Split(s, '\n')[|r| - 1]
    ensures forall k :: 0 <= k < |r| ==> '\n' !in r[k]
  {
    var pieces := Split(s, '\n');
    seq(|pieces|, k requires 0 <= k < |pieces| => if k < |pieces| - 1 then DropTrailingCR(pieces[k]) else pieces[k])
  }

  /** A text with no line feed is one line, a final carriage return included. */
  lemma SplitLinesSingle(s: string)
    requires '\n' !in s
    ensures SplitLines(s) == [s]
  {
    SplitNoSeparator(s, '\n');
  }

  /** A line ended by `\r\n` is the first line, without its `\r`. */
  lemma SplitLinesCrLf(a: string, b: string)
    requires '\n' !in a
    ensures SplitLines(a + "\r\n" + b) == [a] + SplitLines(b)
  {
    assert a + "\r\n" + b == (a + "\r") + ['\n'] + b;
    SplitLinesCons(a + "\r", b);
    assert DropTrailingCR(a + "\r") == a;
  }

  /** A line ended by a bare `\n` is the first line as it stands. */
  lemma SplitLinesLf(a: string, b: string)
    requires '\n' !in a && (a == [] || a[|a| - 1] != '\r')
    ensures SplitLines(a + "\n" + b) == [a] + SplitLines(b)
  {
    SplitLinesCons(a, b);
  }

  /** Lines joined by bare line feeds split back into the lines when none but the last ends with `\r`. */
  lemma SplitLinesOfJoin(lines: seq<string>)
    requires |lines| >= 1
    requires forall k :: 0 <= k < |lines| ==> '\n' !in lines[k]
    requires forall k :: 0 <= k < |lines| - 1 ==> lines[k] == [] || lines[k][|lines[k]| - 1] != '\r'
    ensures SplitLines(Join(lines, "\n")) == lines
  {
    SplitOfJoin(lines, '\n');
    var r := SplitLines(Join(lines, "\n"));
    forall k | 0 <= k < |lines|
      ensures r[k] == lines[k]
    {
    }
  }

  lemma SplitLinesCons(a: string, b: string)
    requires '\n' !in a
    ensures SplitLines(a + ['\n'] + b) == [DropTrailingCR(a)] + SplitLines(b)
  {
    SplitCons(a, b, '\n');
    var l := SplitLines(a + ['\n'] + b);
    var m := [DropTrailingCR(a)] + SplitLines(b);
    assert |l| == |m|;
    forall k | 0 <= k < |l|
      ensures l[k] == m[k]
    {
      if k > 0 {
        assert Split(a + ['\n'] + b, '\n')[k] == Split(b, '\n')[k - 1];
      }
    }
  }

  lemma {:induction false} SplitNoSeparator(s: string, sep: char)
    requires sep !in s
    ensures Split(s, sep) == [s]
  {
    if s != [] {
      SplitNoSeparator(s[1..], sep);
      assert [s[0]] + s[1..] == s;
    }
  }

  lemma {:induction false} SplitCons(a: string, b: string, sep: char)
    requires sep !in a
    ensures Split(a + [sep] + b, sep) == [a] + Split(b, sep)
  {
    if a == [] {
      assert ([sep] + b)[1..] == b;
    } else {
      assert (a + [sep] + b)[1..] == a[1..] + [sep] + b;
      SplitCons(a[1..], b, sep);
      assert [a[0]] + a[1..] == a;
    }
  }

  /** Splitting the pieces joined by a separator none of them holds gives back the pieces. */
  lemma {:induction false} SplitOfJoin(parts: seq<string>, sep: char)
    requires |parts| >= 1
    requires forall k :: 0 <= k < |parts| ==> sep !in parts[k]
    ensures Split(Join(parts, [sep]), sep) == parts
  {
    if |parts| == 1 {
      SplitNoSeparator(parts[0], sep);
    } else {
      SplitOfJoin(parts[1..], sep);
      SplitCons(parts[0], Join(parts[1..], [sep]), sep);
      assert [parts[0]] + parts[1..] == parts;
    }
  }

  /** `s.startsWith(prefix)` */
  predicate StartsWith(s: string, prefix: string) {
    |prefix| <= |s| && s[..|prefix|] == prefix
  }

  // ---- numbers ----

  predicate IsDigit(c: char) {
    '0' <= c <= '9'
  }

  function DigitChar(d: nat): (c: char)
    requires d < 10
    ensures IsDigit(c)
  {
    "0123456789"[d]
  }

  function DigitValue(c: char): (d: nat)
    requires IsDigit(c)
    ensures d < 10
  {
    (c as int - '0' as int) as nat
  }

  lemma DigitRoundTrip(d: nat)
    requires d < 10
    ensures DigitValue(DigitChar(d)) == d
  {
  }

  /** `String(n)` / `${n}` of a non-negative integer. */
  function NatToString(n: nat): (r: string)
    ensures |r| >= 1
    ensures forall i :: 0 <= i < |r| ==> IsDigit(r[i])
  {
    if n < 10 then [DigitChar(n)] else NatToString(n / 10) + [DigitChar(n % 10)]
  }

  /** The value of a run of decimal digits. */
  function DigitsValue(ds: string): nat
    requires forall i :: 0 <= i < |ds| ==> IsDigit(ds[i])
  {
    if ds == [] then 0 else DigitsValue(ds[..|ds| - 1]) * 10 + DigitValue(ds[|ds| - 1])
  }

  /** The longest prefix of `s` made of decimal digits. */
  function DigitPrefix(s: string): (r: string)
    ensures |r| <= |s| && r == s[..|r|]
    ensures forall i :: 0 <= i < |r| ==> IsDigit(r[i])
    ensures |r| == |s| || !IsDigit(s[|r|])
    ensures r == [] <==> s == [] || !IsDigit(s[0])
  {
    if s != [] && IsDigit(s[0]) then
      var rest := DigitPrefix(s[1..]);
      assert s[..|rest| + 1] == [s[0]] + s[1..][..|rest|];
      [s[0]] + rest
    else []
  }

  /** What `parseInt` reads digits from: `s` without leading white space and without one sign character. */
  function Unsigned(s: string): string {
    var t := TrimStart(s);
    if t != [] && (t[0] == '-' || t[0] == '+') then t[1..] else t
  }

  /**
   * `parseInt(s, 10)`: leading white space is skipped, then an optional sign,
   * then the longest run of digits; `None` is `NaN` (no digit there).
   */
  function ParseInt(s: string): (r: Option<int>)
    ensures r.None? <==> Unsigned(s) == [] || !IsDigit(Unsigned(s)[0])
  {
    var t := TrimStart(s);
    var ds := DigitPrefix(Unsigned(s));
    if ds == [] then None
    else if t[0] == '-' then Some(-(DigitsValue(ds) as int))
    else Some(DigitsValue(ds))
  }

  lemma {:induction false} DigitsValueOfNatToString(n: nat)
    ensures DigitsValue(NatToString(n)) == n
  {
    if n >= 10 {
      DigitsValueOfNatToString(n / 10);
      var r := NatToString(n);
      assert r[..|r| - 1] == NatToString(n / 10);
      DigitRoundTrip(n % 10);
    } else {
      DigitRoundTrip(n);
    }
  }

  lemma {:induction false} DigitPrefixOfDigits(s: string)
    requires forall i :: 0 <= i < |s| ==> IsDigit(s[i])
    ensures DigitPrefix(s) == s
  {
    if s != [] {
      DigitPrefixOfDigits(s[1..]);
    }
  }

  /** `parseInt` reads back the decimal rendering of every count. */
  lemma ParseIntOfNatToString(n: nat)
    ensures ParseInt(NatToString(n)) == Some(n)
  {
    var s := NatToString(n);
    assert !IsJsWhitespace(s[0]);
    assert TrimStart(s) == s;
    DigitPrefixOfDigits(s);
    DigitsValueOfNatToString(n);
  }
}
