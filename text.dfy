/** The string operations the shop's code leans on, with Python's meaning:
    `str.startswith`, `str.split(sep)`, `str.strip()`, and the number
    conversions `str(n)` and `int(s)` / `float(s)` restricted to whole
    numbers written in decimal. */
module Text {
  import opened Outcomes

  predicate StartsWith(s: string, prefix: string) {
    |prefix| <= |s| && s[..|prefix|] == prefix
  }

  /** `sep` occurs in `s` starting at index `i`. */
  predicate SepAt(s: string, i: int, sep: string) {
    0 <= i && i + |sep| <= |s| && s[i..i + |sep|] == sep
  }

  /** `sep` occurs nowhere in `s`. */
  predicate Free(s: string, sep: string) {
    forall i :: 0 <= i < |s| ==> !SepAt(s, i, sep)
  }

  /** No occurrence of `sep` starts inside `a`, not even one that would run
      into a copy of `sep` written right after `a`. */
  predicate FreeBefore(a: string, sep: string) {
    forall i :: 0 <= i < |a| ==> !SepAt(a + sep, i, sep)
  }

  /** Python's `s.split(sep)`: cut at every occurrence of `sep`, scanning left
      to right, never overlapping; an empty string gives `[""]`. */
  function Split(s: string, sep: string): (parts: seq<string>)
    requires |sep| > 0
    ensures |parts| >= 1
    decreases |s|
  {
    if |s| < |sep| then [s]
    else if s[..|sep|] == sep then [""] + Split(s[|sep|..], sep)
    else
      var rest := Split(s[1..], sep);
      [[s[0]] + rest[0]] + rest[1..]
  }

  /** Python's `sep.join(parts)`. */
  function Join(parts: seq<string>, sep: string): string
    requires |parts| >= 1
  {
    if |parts| == 1 then parts[0] else parts[0] + sep + Join(parts[1..], sep)
  }

  lemma JoinHead(c: char, parts: seq<string>, sep: string)
    requires |parts| >= 1
    ensures Join([[c] + parts[0]] + parts[1..], sep) == [c] + Join(parts, sep)
  {
    var q := [[c] + parts[0]] + parts[1..];
    if |parts| > 1 {
      assert q[1..] == parts[1..];
    }
  }

  /** Joining the pieces of a split with the separator gives back the string. */
  lemma {:induction false} JoinSplit(s: string, sep: string)
    requires |sep| > 0
    ensures Join(Split(s, sep), sep) == s
    decreases |s|
  {
    if |s| < |sep| {
    } else if s[..|sep|] == sep {
      JoinSplit(s[|sep|..], sep);
      var rest := Split(s[|sep|..], sep);
      assert Split(s, sep) == [""] + rest;
      assert ([""] + rest)[1..] == rest;
      assert Join([""] + rest, sep) == "" + sep + Join(rest, sep);
      assert s == sep + s[|sep|..];
    } else {
      var rest := Split(s[1..], sep);
      assert Split(s, sep) == [[s[0]] + rest[0]] + rest[1..];
      JoinSplit(s[1..], sep);
      JoinHead(s[0], rest, sep);
      assert s == [s[0]] + s[1..];
    }
  }

  lemma FreeTail(a: string, sep: string)
    requires |a| > 0 && Free(a, sep)
    ensures Free(a[1..], sep)
  {
    forall i | 0 <= i < |a[1..]| ensures !SepAt(a[1..], i, sep) {
      if SepAt(a[1..], i, sep) {
        assert a[1..][i..i + |sep|] == a[i + 1..i + 1 + |sep|];
        assert SepAt(a, i + 1, sep);
      }
    }
  }

  /** No piece of a split contains the separator, and the first piece is a
      prefix of the string. */
  lemma {:induction false} SplitPartsFree(s: string, sep: string)
    requires |sep| > 0
    ensures Split(s, sep)[0] <= s
    ensures forall k :: 0 <= k < |Split(s, sep)| ==> Free(Split(s, sep)[k], sep)
    decreases |s|
  {
    var parts := Split(s, sep);
    if |s| < |sep| {
      forall i | 0 <= i < |s| ensures !SepAt(s, i, sep) { }
    } else if s[..|sep|] == sep {
      SplitPartsFree(s[|sep|..], sep);
      var rest := Split(s[|sep|..], sep);
      assert parts == [""] + rest;
      forall k | 0 <= k < |parts| ensures Free(parts[k], sep) {
        if k > 0 { assert parts[k] == rest[k - 1]; }
      }
    } else {
      SplitPartsFree(s[1..], sep);
      var rest := Split(s[1..], sep);
      var first := [s[0]] + rest[0];
      assert parts == [first] + rest[1..];
      assert first <= s;
      forall i | 0 <= i < |first| ensures !SepAt(first, i, sep) {
        if i == 0 {
          if |sep| <= |first| {
            assert first[..|sep|] == s[..|sep|];
          }
        } else if i + |sep| <= |first| {
          assert first[i..i + |sep|] == rest[0][i - 1..i - 1 + |sep|];
          assert !SepAt(rest[0], i - 1, sep);
        }
      }
      forall k | 0 <= k < |parts| ensures Free(parts[k], sep) {
        if k > 0 { assert parts[k] == rest[k]; }
      }
    }
  }

  /** A string with no separator in it splits into itself alone. */
  lemma {:induction false} SplitWhole(a: string, sep: string)
    requires |sep| > 0 && Free(a, sep)
    ensures Split(a, sep) == [a]
    decreases |a|
  {
    if |a| >= |sep| {
      assert !SepAt(a, 0, sep);
      FreeTail(a, sep);
      SplitWhole(a[1..], sep);
      assert a == [a[0]] + a[1..];
    }
  }

  /** Splitting `a + sep + b` cuts exactly after `a` when no occurrence of
      `sep` starts inside `a`. */
  lemma {:induction false} SplitAround(a: string, sep: string, b: string)
    requires |sep| > 0 && FreeBefore(a, sep)
    ensures Split(a + sep + b, sep) == [a] + Split(b, sep)
    decreases |a|
  {
    var s := a + sep + b;
    if a == [] {
      assert s[..|sep|] == sep;
      assert s[|sep|..] == b;
    } else {
      assert !SepAt(a + sep, 0, sep);
      assert s[..|sep|] == (a + sep)[..|sep|];
      forall i | 0 <= i < |a[1..]| ensures !SepAt(a[1..] + sep, i, sep) {
        if SepAt(a[1..] + sep, i, sep) {
          assert (a[1..] + sep)[i..i + |sep|] == (a + sep)[i + 1..i + 1 + |sep|];
          assert SepAt(a + sep, i + 1, sep);
        }
      }
      SplitAround(a[1..], sep, b);
      assert s[1..] == a[1..] + sep + b;
      assert [s[0]] + a[1..] == a;
    }
  }

  /** `Split` on a string that starts with the separator. */
  lemma SplitCut(s: string, sep: string)
    requires |sep| > 0 && |sep| <= |s| && s[..|sep|] == sep
    ensures Split(s, sep) == [""] + Split(s[|sep|..], sep)
  {
  }

  /** `Split` on a string that does not start with the separator. */
  lemma SplitMove(s: string, sep: string)
    requires |sep| > 0 && |sep| <= |s| && s[..|sep|] != sep
    ensures Split(s, sep) == [[s[0]] + Split(s[1..], sep)[0]] + Split(s[1..], sep)[1..]
  {
  }

  lemma SplitConcatShort(x: string, sep: string, y: string)
    requires |sep| == 2 && sep[0] != sep[1] && |x| == 1
    ensures Split(x + sep + y, sep) == Split(x, sep) + Split(y, sep)
  {
    var s := x + sep + y;
    assert s[..|sep|] != sep by { assert s[..|sep|][1] == sep[0]; }
    SplitMove(s, sep);
    assert s[1..] == sep + y;
    SplitCut(sep + y, sep);
    assert (sep + y)[|sep|..] == y;
    assert [s[0]] + "" == x;
  }

  lemma SplitConcatCut(x: string, sep: string, y: string)
    requires |sep| > 0 && |sep| <= |x| && x[..|sep|] == sep
    requires Split(x[|sep|..] + sep + y, sep) == Split(x[|sep|..], sep) + Split(y, sep)
    ensures Split(x + sep + y, sep) == Split(x, sep) + Split(y, sep)
  {
    var s := x + sep + y;
    assert s[..|sep|] == x[..|sep|];
    assert s[|sep|..] == x[|sep|..] + sep + y;
    SplitCut(s, sep);
    SplitCut(x, sep);
    var rest, ys := Split(x[|sep|..], sep), Split(y, sep);
    assert [""] + (rest + ys) == ([""] + rest) + ys;
  }

  /** Prepending a character to the first piece commutes with appending
      more pieces. */
  lemma PrependFirst(c: char, rest: seq<string>, more: seq<string>)
    requires |rest| >= 1
    ensures [[c] + (rest + more)[0]] + (rest + more)[1..] == ([[c] + rest[0]] + rest[1..]) + more
  {
    assert (rest + more)[1..] == rest[1..] + more;
  }

  lemma SplitConcatMove(x: string, sep: string, y: string)
    requires |sep| > 0 && |sep| <= |x| && x[..|sep|] != sep
    requires Split(x[1..] + sep + y, sep) == Split(x[1..], sep) + Split(y, sep)
    ensures Split(x + sep + y, sep) == Split(x, sep) + Split(y, sep)
  {
    var s := x + sep + y;
    assert s[..|sep|] == x[..|sep|] && s[0] == x[0];
    assert s[1..] == x[1..] + sep + y;
    SplitMove(s, sep);
    SplitMove(x, sep);
    PrependFirst(x[0], Split(x[1..], sep), Split(y, sep));
  }

  /** For a separator that cannot overlap itself, splitting `x + sep + y`
      splits `x` and `y` apart: the separator written between them is always
      the one cut at. */
  lemma {:induction false} SplitConcat(x: string, sep: string, y: string)
    requires |sep| == 1 || (|sep| == 2 && sep[0] != sep[1])
    ensures Split(x + sep + y, sep) == Split(x, sep) + Split(y, sep)
    decreases |x|
  {
    if x == [] {
      assert x + sep + y == sep + y;
      SplitCut(sep + y, sep);
      assert (sep + y)[|sep|..] == y;
    } else if |x| < |sep| {
      SplitConcatShort(x, sep, y);
    } else if x[..|sep|] == sep {
      SplitConcat(x[|sep|..], sep, y);
      SplitConcatCut(x, sep, y);
    } else {
      SplitConcat(x[1..], sep, y);
      SplitConcatMove(x, sep, y);
    }
  }

  /** Splitting the join of separator-free pieces gives the pieces back. */
  lemma {:induction false} SplitJoin(parts: seq<string>, sep: string)
    requires |parts| >= 1
    requires |sep| == 1 || (|sep| == 2 && sep[0] != sep[1])
    requires forall k :: 0 <= k < |parts| ==> Free(parts[k], sep)
    ensures Split(Join(parts, sep), sep) == parts
    decreases |parts|
  {
    if |parts| == 1 {
      SplitWhole(parts[0], sep);
    } else {
      FreeBeforeOf(parts[0], sep);
      SplitJoin(parts[1..], sep);
      SplitAround(parts[0], sep, Join(parts[1..], sep));
      assert [parts[0]] + parts[1..] == parts;
    }
  }

  /** A string lacking the separator's first character lacks the separator. */
  lemma FreeOfHead(a: string, sep: string)
    requires |sep| > 0 && sep[0] !in a
    ensures Free(a, sep)
  {
    forall i | 0 <= i < |a| ensures !SepAt(a, i, sep) {
      if i + |sep| <= |a| {
        assert a[i..i + |sep|][0] == a[i];
      }
    }
  }

  /** A one-character separator that occurs nowhere is a character that
      occurs nowhere. */
  lemma FreeOfChar(a: string, c: char)
    requires Free(a, [c])
    ensures c !in a
  {
    forall i | 0 <= i < |a| ensures a[i] != c {
      assert !SepAt(a, i, [c]);
      assert a[i..i + 1] == [a[i]];
    }
  }

  /** For a separator of one character, or of two different characters, a
      string free of it cannot start an occurrence that runs into a following
      copy of it. */
  lemma FreeBeforeOf(a: string, sep: string)
    requires |sep| == 1 || (|sep| == 2 && sep[0] != sep[1])
    requires Free(a, sep)
    ensures FreeBefore(a, sep)
  {
    forall i | 0 <= i < |a| ensures !SepAt(a + sep, i, sep) {
      if i + |sep| <= |a| {
        assert (a + sep)[i..i + |sep|] == a[i..i + |sep|];
        assert !SepAt(a, i, sep);
      } else {
        assert (a + sep)[i..i + |sep|][1] == sep[0];
      }
    }
  }

  /** Two strings free of a two-character separator stay free of it when
      joined, unless the separator straddles the seam. */
  lemma FreeConcat(x: string, y: string, sep: string)
    requires |sep| == 2 && Free(x, sep) && Free(y, sep)
    requires |x| == 0 || |y| == 0 || x[|x| - 1] != sep[0] || y[0] != sep[1]
    ensures Free(x + y, sep)
  {
    var s := x + y;
    forall i | 0 <= i < |s| ensures !SepAt(s, i, sep) {
      if i + 2 <= |x| {
        assert s[i..i + 2] == x[i..i + 2];
        assert !SepAt(x, i, sep);
      } else if i >= |x| {
        if i + 2 <= |s| {
          assert s[i..i + 2] == y[i - |x|..i - |x| + 2];
          assert !SepAt(y, i - |x|, sep);
        }
      } else if i + 2 <= |s| {
        assert s[i..i + 2] == [x[|x| - 1], y[0]];
      }
    }
  }

  /** The ASCII whitespace characters, the part of what Python's `str.strip()`
      removes that this model covers. */
  predicate IsSpace(c: char) {
    c == ' ' || c == '\t' || c == '\n' || c == '\r' || c == '\U{000B}' || c == '\U{000C}'
  }

  function TrimStart(s: string): (r: string)
    ensures r != [] ==> !IsSpace(r[0])
    decreases |s|
  {
    if |s| > 0 && IsSpace(s[0]) then TrimStart(s[1..]) else s
  }

  function TrimEnd(s: string): (r: string)
    ensures r <= s
    ensures r != [] ==> !IsSpace(r[|r| - 1])
    decreases |s|
  {
    if |s| > 0 && IsSpace(s[|s| - 1]) then TrimEnd(s[..|s| - 1]) else s
  }

  /** Python's `s.strip()`. */
  function Strip(s: string): (r: string)
    ensures r != [] ==> !IsSpace(r[0]) && !IsSpace(r[|r| - 1])
  {
    TrimEnd(TrimStart(s))
  }

  /** Stripping leaves alone a string that neither starts nor ends with
      whitespace, and a leading blank is dropped. */
  lemma StripBlankThen(s: string)
    requires |s| > 0 && !IsSpace(s[0]) && !IsSpace(s[|s| - 1])
    ensures Strip(s) == s
    ensures Strip(" " + s) == s
  {
    assert (" " + s)[1..] == s;
  }

  predicate IsDigit(c: char) {
    '0' <= c <= '9'
  }

  function DigitValue(c: char): nat
    requires IsDigit(c)
  {
    (c as int) - ('0' as int)
  }

  function DigitChar(d: nat): (c: char)
    requires d < 10
    ensures IsDigit(c) && DigitValue(c) == d
  {
    ('0' as int + d) as char
  }

  predicate AllDigits(s: string) {
    forall k :: 0 <= k < |s| ==> IsDigit(s[k])
  }

  /** The shape `int(s)` accepts here: an optional minus sign, then one or
      more decimal digits. */
  predicate Numeral(s: string) {
    |s| > 0 && IsDigit(s[|s| - 1]) && forall k :: 0 <= k < |s| ==> IsDigit(s[k]) || (k == 0 && s[k] == '-')
  }

  function NatToString(n: nat): (r: string)
    ensures |r| > 0 && AllDigits(r)
    decreases n
  {
    if n < 10 then [DigitChar(n)] else NatToString(n / 10) + [DigitChar(n % 10)]
  }

  function ParseNat(s: string): nat
    requires AllDigits(s)
  {
    if s == [] then 0 else ParseNat(s[..|s| - 1]) * 10 + DigitValue(s[|s| - 1])
  }

  /** Python's `str(n)` for a whole number. */
  function IntToString(n: int): (r: string)
    ensures Numeral(r)
    ensures r[0] == '-' <==> n < 0
  {
    if n < 0 then "-" + NatToString(-n) else NatToString(n)
  }

  /** `int(s)`: the value of a numeral, `None` where Python raises ValueError. */
  function ParseInt(s: string): Option<int> {
    if !Numeral(s) then None
    else if s[0] == '-' then var v: int := ParseNat(s[1..]); Some(-v)
    else Some(ParseNat(s))
  }

  lemma {:induction false} ParseNatToString(n: nat)
    ensures ParseNat(NatToString(n)) == n
    decreases n
  {
    if n >= 10 {
      ParseNatToString(n / 10);
      var r := NatToString(n);
      assert r[..|r| - 1] == NatToString(n / 10);
    }
  }

  /** Reading back what `str(n)` wrote gives `n`. */
  lemma ParseIntToString(n: int)
    ensures ParseInt(IntToString(n)) == Some(n)
  {
    var r := IntToString(n);
    if n < 0 {
      assert r[1..] == NatToString(-n);
      ParseNatToString(-n);
    } else {
      ParseNatToString(n);
    }
  }

  /** A numeral holds nothing but digits and a leading minus. */
  lemma NumeralLacks(s: string, c: char)
    requires Numeral(s) && !IsDigit(c) && c != '-'
    ensures c !in s
  {
    assert forall k :: 0 <= k < |s| ==> s[k] != c;
  }

  /** The decimal text of a number holds no separator that begins with a
      comma. */
  lemma NumeralFree(n: int, sep: string)
    requires |sep| > 0 && sep[0] == ','
    ensures Free(IntToString(n), sep)
  {
    NumeralLacks(IntToString(n), ',');
    FreeOfHead(IntToString(n), sep);
  }
}
