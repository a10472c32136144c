/**
  The Python string operations the pipeline relies on, with Python's semantics:
  `str.strip()`, `os.path.basename`, `str(n)` for a counter, `str.replace("-", "")`
  and the line-by-line iteration of a text file.
*/
module Text {

  /** Python's `str.isspace()` for a single character. */
  predicate IsSpace(c: char)
  {
    ('\t' <= c <= '\r') || ('\U{1c}' <= c <= '\U{1f}') || c == ' ' ||
    c == '\U{85}' || c == '\U{a0}' || c == '\U{1680}' ||
    ('\U{2000}' <= c <= '\U{200a}') || c == '\U{2028}' || c == '\U{2029}' ||
    c == '\U{202f}' || c == '\U{205f}' || c == '\U{3000}'
  }

  /** A string with no whitespace at either end: what `str.strip()` returns. */
  predicate IsStripped(s: string)
  {
    s == [] || (!IsSpace(s[0]) && !IsSpace(s[|s| - 1]))
  }

  /** `str.lstrip()`: drops the leading whitespace. */
  function TrimStart(s: string): (r: string)
    ensures |r| <= |s|
    ensures r == [] || !IsSpace(r[0])
  {
    if s != [] && IsSpace(s[0]) then TrimStart(s[1..]) else s
  }

  /** `str.rstrip()`: drops the trailing whitespace. */
  function TrimEnd(s: string): (r: string)
    ensures |r| <= |s|
    ensures r == [] || (r[0] == s[0] && !IsSpace(r[|r| - 1]))
  {
    if s != [] && IsSpace(s[|s| - 1]) then TrimEnd(s[..|s| - 1]) else s
  }

  /** `str.strip()`: the longest infix of `s` that neither starts nor ends with whitespace. */
  function Strip(s: string): (r: string)
    ensures IsStripped(r)
    ensures |r| <= |s|
  {
    TrimEnd(TrimStart(s))
  }

  /** `lstrip` drops a prefix made only of whitespace. */
  lemma {:induction false} TrimStartDropsSpace(s: string)
    ensures TrimStart(s) == s[|s| - |TrimStart(s)|..]
    ensures forall k :: 0 <= k < |s| - |TrimStart(s)| ==> IsSpace(s[k])
  {
    if s != [] && IsSpace(s[0]) {
      TrimStartDropsSpace(s[1..]);
      assert s[1..][|s| - 1 - |TrimStart(s)|..] == s[|s| - |TrimStart(s)|..];
      assert forall k :: 1 <= k < |s| ==> s[k] == s[1..][k - 1];
    }
  }

  /** `rstrip` drops a suffix made only of whitespace. */
  lemma {:induction false} TrimEndDropsSpace(s: string)
    ensures TrimEnd(s) == s[..|TrimEnd(s)|]
    ensures forall k :: |TrimEnd(s)| <= k < |s| ==> IsSpace(s[k])
  {
    if s != [] && IsSpace(s[|s| - 1]) {
      var t := s[..|s| - 1];
      TrimEndDropsSpace(t);
      assert t[..|TrimEnd(s)|] == s[..|TrimEnd(s)|];
      assert forall k :: 0 <= k < |t| ==> s[k] == t[k];
    }
  }

  /**
    `str.strip()` returns the input with only whitespace removed, from the start and from the
    end; since the result is stripped, it is the longest such infix.
  */
  lemma StripIsTrim(s: string)
    ensures exists i, j ::
              && 0 <= i <= j <= |s| && Strip(s) == s[i..j]
              && (forall k :: 0 <= k < i ==> IsSpace(s[k]))
              && (forall k :: j <= k < |s| ==> IsSpace(s[k]))
  {
    var t := TrimStart(s);
    TrimStartDropsSpace(s);
    TrimEndDropsSpace(t);
    var i := |s| - |t|;
    var j := i + |Strip(s)|;
    assert Strip(s) == s[i..j] by {
      assert t == s[i..];
      assert Strip(s) == t[..j - i];
    }
    assert forall k :: j <= k < |s| ==> IsSpace(s[k]) by {
      assert forall k :: j <= k < |s| ==> s[k] == t[k - i];
    }
  }

  /** Stripping a string that is already stripped changes nothing. */
  lemma StripOfStripped(s: string)
    requires IsStripped(s)
    ensures Strip(s) == s
  {
    if s != [] {
      assert TrimStart(s) == s;
      assert TrimEnd(s) == s;
    }
  }

  /** Appending a whitespace character: the leading whitespace of `s` is unaffected. */
  lemma {:induction false} TrimStartSnoc(s: string, c: char)
    requires IsSpace(c)
    ensures TrimStart(s + [c]) == if TrimStart(s) == [] then [] else TrimStart(s) + [c]
  {
    if s == [] {
      assert TrimStart(s + [c]) == [] by {
        assert s + [c] == [c] && [c][1..] == [];
      }
    } else if IsSpace(s[0]) {
      assert TrimStart(s + [c]) == TrimStart(s[1..] + [c]) by {
        assert (s + [c])[0] == s[0];
        assert (s + [c])[1..] == s[1..] + [c];
      }
      TrimStartSnoc(s[1..], c);
    } else {
      assert TrimStart(s + [c]) == s + [c] by {
        assert (s + [c])[0] == s[0];
      }
    }
  }

  /** `(s + ws).strip() == s.strip()` for any whitespace character `ws`, the newline included. */
  lemma StripIgnoresTrailingSpace(s: string, c: char)
    requires IsSpace(c)
    ensures Strip(s + [c]) == Strip(s)
  {
    TrimStartSnoc(s, c);
    var t := TrimStart(s);
    if t != [] {
      assert (t + [c])[..|t|] == t;
    }
  }

  /** `os.path.basename(p)`: the part after the last slash. */
  function Basename(p: string): (r: string)
    ensures '/' !in r
  {
    if p == [] || p[|p| - 1] == '/' then [] else Basename(p[..|p| - 1]) + [p[|p| - 1]]
  }

  /** The base name is the suffix of the path that starts after its last slash, or the whole path. */
  lemma {:induction false} BasenameIsLastComponent(p: string)
    ensures |Basename(p)| <= |p| && Basename(p) == p[|p| - |Basename(p)|..]
    ensures |Basename(p)| == |p| || p[|p| - |Basename(p)| - 1] == '/'
  {
    if p != [] && p[|p| - 1] != '/' {
      var q := p[..|p| - 1];
      BasenameIsLastComponent(q);
      assert p[|p| - |Basename(p)|..] == q[|q| - |Basename(q)|..] + [p[|p| - 1]];
    }
  }

  predicate IsDigit(c: char)
  {
    '0' <= c <= '9'
  }

  predicate AllDigits(s: string)
  {
    forall i :: 0 <= i < |s| ==> IsDigit(s[i])
  }

  function DigitChar(d: nat): (c: char)
    requires d < 10
    ensures IsDigit(c)
  {
    (48 + d) as char
  }

  function DigitValue(c: char): (d: nat)
    requires IsDigit(c)
    ensures d < 10
  {
    c as int - 48
  }

  /** Python's `str(n)` for a natural number: decimal digits, no leading zero. */
  function Decimal(n: nat): (r: string)
    ensures r != [] && AllDigits(r)
    ensures r[0] == '0' <==> n == 0
  {
    if n < 10 then [DigitChar(n)] else Decimal(n / 10) + [DigitChar(n % 10)]
  }

  /** Reads a string of decimal digits back as a number; the inverse of `Decimal`. */
  function ParseDecimal(s: string): nat
    requires AllDigits(s)
  {
    if s == [] then 0 else ParseDecimal(s[..|s| - 1]) * 10 + DigitValue(s[|s| - 1])
  }

  lemma {:induction false} ParseDecimalOfDecimal(n: nat)
    ensures ParseDecimal(Decimal(n)) == n
  {
    var r := Decimal(n);
    if n >= 10 {
      assert r[..|r| - 1] == Decimal(n / 10);
      ParseDecimalOfDecimal(n / 10);
    }
  }

  /** Distinct counters print as distinct strings. */
  lemma DecimalInjective(m: nat, n: nat)
    requires Decimal(m) == Decimal(n)
    ensures m == n
  {
    ParseDecimalOfDecimal(m);
    ParseDecimalOfDecimal(n);
  }

  /** `s.replace("-", "")`. */
  function RemoveDashes(s: string): string
  {
    if s == [] then [] else (if s[0] == '-' then [] else [s[0]]) + RemoveDashes(s[1..])
  }

  lemma {:induction false} RemoveDashesAppend(a: string, b: string)
    ensures RemoveDashes(a + b) == RemoveDashes(a) + RemoveDashes(b)
  {
    if a != [] {
      assert (a + b)[1..] == a[1..] + b;
      RemoveDashesAppend(a[1..], b);
    } else {
      assert a + b == b;
    }
  }

  lemma {:induction false} RemoveDashesNoDash(s: string)
    requires '-' !in s
    ensures RemoveDashes(s) == s
  {
    if s != [] {
      RemoveDashesNoDash(s[1..]);
    }
  }

  /** The `YYYY-MM-DD` shape that `strftime("%Y-%m-%d")` produces. */
  predicate IsDashedDate(s: string)
  {
    |s| == 10 && s[4] == '-' && s[7] == '-' &&
    AllDigits(s[..4]) && AllDigits(s[5..7]) && AllDigits(s[8..])
  }

  /** Removing the dashes from `YYYY-MM-DD` yields the eight digits `YYYYMMDD`. */
  lemma DashedDateUndashed(s: string)
    requires IsDashedDate(s)
    ensures RemoveDashes(s) == s[..4] + s[5..7] + s[8..]
    ensures |RemoveDashes(s)| == 8 && AllDigits(RemoveDashes(s))
  {
    var year, month, day := s[..4], s[5..7], s[8..];
    DigitsHaveNoDash(year);
    DigitsHaveNoDash(month);
    DigitsHaveNoDash(day);
    assert s == year + ("-" + (month + ("-" + day)));
    RemoveTwoDashes(year, month, day);
    assert year + (month + day) == year + month + day;
    AllDigitsAppend(year, month);
    AllDigitsAppend(year + month, day);
  }

  lemma DigitsHaveNoDash(s: string)
    requires AllDigits(s)
    ensures '-' !in s && RemoveDashes(s) == s
  {
    RemoveDashesNoDash(s);
  }

  lemma RemoveTwoDashes(a: string, b: string, c: string)
    requires RemoveDashes(a) == a && RemoveDashes(b) == b && RemoveDashes(c) == c
    ensures RemoveDashes(a + ("-" + (b + ("-" + c)))) == a + (b + c)
  {
    var tail := "-" + c;
    var mid := b + tail;
    RemoveDashesAppend(a, "-" + mid);
    DashDropped(mid);
    RemoveDashesAppend(b, tail);
    DashDropped(c);
  }

  lemma DashDropped(s: string)
    ensures RemoveDashes("-" + s) == RemoveDashes(s)
  {
    assert ("-" + s)[1..] == s;
  }

  lemma AllDigitsAppend(a: string, b: string)
    requires AllDigits(a) && AllDigits(b)
    ensures AllDigits(a + b)
  {
  }

  /** Length of the first line of `s`, its terminating newline included if there is one. */
  function LineLength(s: string): (n: nat)
    requires s != []
    ensures 1 <= n <= |s|
    ensures n == |s| || s[n - 1] == '\n'
  {
    if s[0] == '\n' || |s| == 1 then 1 else 1 + LineLength(s[1..])
  }

  /** The lines Python's `for line in f` yields: each keeps its `\n`; the last may lack one. */
  function Lines(s: string): seq<string>
    decreases |s|
  {
    if s == [] then [] else
      var n := LineLength(s);
      [s[..n]] + Lines(s[n..])
  }

  /** The lines are non-empty and together make up the whole text. */
  lemma {:induction false} LinesCover(s: string)
    ensures Concat(Lines(s)) == s
    ensures forall i :: 0 <= i < |Lines(s)| ==> Lines(s)[i] != []
    decreases |s|
  {
    if s != [] {
      var n := LineLength(s);
      LinesCover(s[n..]);
      ConcatCons(s[..n], Lines(s[n..]));
      TakeDrop(s, n);
    }
  }

  function Concat(ls: seq<string>): string
  {
    if ls == [] then [] else ls[0] + Concat(ls[1..])
  }

  lemma TakeDrop<T>(s: seq<T>, k: nat)
    requires k <= |s|
    ensures s[..k] + s[k..] == s
  {
  }

  lemma ConcatCons(x: string, ls: seq<string>)
    ensures Concat([x] + ls) == x + Concat(ls)
  {
    assert ([x] + ls)[1..] == ls;
  }

  /** A text that is empty or ends with a newline: nothing written after it joins its last line. */
  predicate EndsLine(s: string)
  {
    s == [] || s[|s| - 1] == '\n'
  }

  lemma {:induction false} LineLengthAppend(a: string, b: string)
    requires a != [] && EndsLine(a)
    ensures LineLength(a + b) == LineLength(a)
  {
    if a[0] != '\n' && |a| > 1 {
      assert (a + b)[1..] == a[1..] + b;
      LineLengthAppend(a[1..], b);
    }
  }

  /** The first line of a text ending in a newline is unaffected by what follows the text. */
  lemma FirstLineOfAppend(a: string, b: string)
    requires a != [] && EndsLine(a)
    ensures Lines(a + b) == [a[..LineLength(a)]] + Lines(a[LineLength(a)..] + b)
  {
    var n := LineLength(a);
    LineLengthAppend(a, b);
    assert (a + b)[..n] == a[..n];
    assert (a + b)[n..] == a[n..] + b;
  }

  /** What follows the first line of a text ending in a newline also ends in one. */
  lemma RestEndsLine(a: string)
    requires a != [] && EndsLine(a)
    ensures EndsLine(a[LineLength(a)..])
  {
    var rest := a[LineLength(a)..];
    if rest != [] {
      assert rest[|rest| - 1] == a[|a| - 1];
    }
  }

  /** Reading text written after a complete line yields the old lines, then the new ones. */
  lemma {:induction false} LinesAppend(a: string, b: string)
    requires EndsLine(a)
    ensures Lines(a + b) == Lines(a) + Lines(b)
    decreases |a|
  {
    if a == [] {
      assert a + b == b;
    } else {
      var n := LineLength(a);
      FirstLineOfAppend(a, b);
      RestEndsLine(a);
      LinesAppend(a[n..], b);
      ConsAppend(a[..n], Lines(a[n..]), Lines(b));
    }
  }

  lemma ConsAppend<T>(x: T, xs: seq<T>, ys: seq<T>)
    ensures [x] + (xs + ys) == ([x] + xs) + ys
  {
  }

  /** One name with no newline, followed by a newline, reads back as exactly one line. */
  lemma LinesOfOneLine(name: string)
    requires '\n' !in name
    ensures Lines(name + "\n") == [name + "\n"]
  {
    var s := name + "\n";
    var n := LineLength(s);
    assert s[..n] == s && s[n..] == [];
    assert Lines(s) == [s[..n]] + Lines(s[n..]);
  }

  lemma ConcatAssoc(x: string, y: string, z: string)
    ensures (x + y) + z == x + (y + z)
  {
  }

  /** `x` occurs in `s` at offset `k`. */
  predicate OccursAt(x: string, s: string, k: int)
  {
    0 <= k && k + |x| <= |s| && s[k..k + |x|] == x
  }

  /** `x in s` for strings. */
  ghost predicate Contains(s: string, x: string)
  {
    exists k :: OccursAt(x, s, k)
  }

  lemma ContainsSelf(x: string)
    ensures Contains(x, x)
  {
    assert OccursAt(x, x, 0);
  }

  lemma ContainsPrepend(s: string, t: string, x: string)
    requires Contains(t, x)
    ensures Contains(s + t, x)
  {
    var k :| OccursAt(x, t, k);
    assert (s + t)[|s| + k..|s| + k + |x|] == t[k..k + |x|];
    assert OccursAt(x, s + t, |s| + k);
  }

  lemma ContainsAppend(s: string, t: string, x: string)
    requires Contains(s, x)
    ensures Contains(s + t, x)
  {
    var k :| OccursAt(x, s, k);
    assert (s + t)[k..k + |x|] == s[k..k + |x|];
    assert OccursAt(x, s + t, k);
  }
}
