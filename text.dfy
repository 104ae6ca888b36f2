// String operations of Python and Java that the modelled programs rely on,
// over `string` (a sequence of characters; no Unicode normalisation).
module Text {

  /** Python `s.split(sep)` for a one-character separator: the pieces between
    * separators, always at least one (`"".split(";") == [""]`). */
  function Split(s: string, sep: char): (parts: seq<string>)
    ensures |parts| >= 1
    ensures forall i :: 0 <= i < |parts| ==> sep !in parts[i]
    decreases |s|
  {
    if |s| == 0 then [""]
    else
      var rest := Split(s[1..], sep);
      if s[0] == sep then [""] + rest
      else [[s[0]] + rest[0]] + rest[1..]
  }

  /** Python `sep.join(parts)`. */
  function Join(parts: seq<string>, sep: string): (r: string)
    ensures |parts| == 1 ==> r == parts[0]
    ensures |parts| == 0 ==> r == ""
  {
    if |parts| == 0 then ""
    else if |parts| == 1 then parts[0]
    else parts[0] + sep + Join(parts[1..], sep)
  }

  lemma JoinCons(p: string, rest: seq<string>, sep: string)
    requires |rest| >= 1
    ensures Join([p] + rest, sep) == p + sep + Join(rest, sep)
  {
    assert ([p] + rest)[1..] == rest;
  }

  /** Joining the pieces of a split with the separator gives back the string. */
  lemma {:induction false} JoinSplit(s: string, sep: char)
    ensures Join(Split(s, sep), [sep]) == s
    decreases |s|
  {
    if |s| > 0 {
      var rest := Split(s[1..], sep);
      JoinSplit(s[1..], sep);
      if s[0] == sep {
        JoinCons("", rest, [sep]);
        assert s == [sep] + s[1..];
      } else if |rest| == 1 {
        assert s == [s[0]] + s[1..];
      } else {
        JoinCons(rest[0], rest[1..], [sep]);
        assert rest == [rest[0]] + rest[1..];
        JoinCons([s[0]] + rest[0], rest[1..], [sep]);
        assert s == [s[0]] + s[1..];
      }
    }
  }

  lemma AppendAssoc<T>(a: seq<T>, b: seq<T>, c: seq<T>)
    ensures a + b + c == a + (b + c)
  {
  }

  lemma {:induction false} SplitWithoutSeparator(a: string, sep: char)
    requires sep !in a
    ensures Split(a, sep) == [a]
    decreases |a|
  {
    if |a| > 0 {
      SplitWithoutSeparator(a[1..], sep);
      assert a == [a[0]] + a[1..];
    }
  }

  lemma {:induction false} SplitAfterPiece(a: string, sep: char, rest: string)
    requires sep !in a
    ensures Split(a + [sep] + rest, sep) == [a] + Split(rest, sep)
    decreases |a|
  {
    var s := a + [sep] + rest;
    if |a| == 0 {
      assert s[1..] == rest;
    } else {
      assert s[1..] == a[1..] + [sep] + rest;
      SplitAfterPiece(a[1..], sep, rest);
      assert a == [a[0]] + a[1..];
    }
  }

  /** Splitting a join of separator-free pieces gives back the pieces. */
  lemma {:induction false} SplitJoin(parts: seq<string>, sep: char)
    requires |parts| >= 1
    requires forall i :: 0 <= i < |parts| ==> sep !in parts[i]
    ensures Split(Join(parts, [sep]), sep) == parts
    decreases |parts|
  {
    if |parts| == 1 {
      SplitWithoutSeparator(parts[0], sep);
    } else {
      SplitJoin(parts[1..], sep);
      SplitAfterPiece(parts[0], sep, Join(parts[1..], [sep]));
      assert parts == [parts[0]] + parts[1..];
    }
  }

  /** Replaces every occurrence of the character `c` by `rep`
    * (Python `s.replace(c, rep)` and Java `s.replace(c, rep)` for one character). */
  function ReplaceChar(s: string, c: char, rep: string): (r: string)
    ensures c !in rep ==> c !in r
    ensures c !in s ==> r == s
    ensures |rep| == 1 ==> |r| == |s|
  {
    if |s| == 0 then ""
    else (if s[0] == c then rep else [s[0]]) + ReplaceChar(s[1..], c, rep)
  }

  /** Python `s.replace(pat, rep)`: occurrences of `pat` are replaced from the
    * left, without overlapping. */
  function Replace(s: string, pat: string, rep: string): (r: string)
    requires |pat| > 0
    decreases |s|
  {
    if |s| >= |pat| && s[..|pat|] == pat then rep + Replace(s[|pat|..], pat, rep)
    else if |s| == 0 then ""
    else [s[0]] + Replace(s[1..], pat, rep)
  }

  /** Escapes every occurrence of `c` with a backslash (`re.sub(c, "\\" + c, s)`). */
  function Escape(s: string, c: char): (r: string)
    requires c != '\\'
    ensures forall i :: 0 <= i < |r| && r[i] == c ==> i > 0 && r[i - 1] == '\\'
  {
    EscapedArePreceded(s, c);
    ReplaceChar(s, c, ['\\', c])
  }

  lemma {:induction false} EscapedArePreceded(s: string, c: char)
    requires c != '\\'
    ensures forall i :: 0 <= i < |ReplaceChar(s, c, ['\\', c])| && ReplaceChar(s, c, ['\\', c])[i] == c
              ==> i > 0 && ReplaceChar(s, c, ['\\', c])[i - 1] == '\\'
    decreases |s|
  {
    if |s| > 0 {
      EscapedArePreceded(s[1..], c);
      EscapedNeverStartsWith(s[1..], c);
      var head := if s[0] == c then ['\\', c] else [s[0]];
      var tail := ReplaceChar(s[1..], c, ['\\', c]);
      var r := head + tail;
      assert ReplaceChar(s, c, ['\\', c]) == r;
      forall i | 0 <= i < |r| && r[i] == c
        ensures i > 0 && r[i - 1] == '\\'
      {
        if i >= |head| {
          assert r[i] == tail[i - |head|];
          assert i - |head| > 0;
          assert r[i - 1] == tail[i - |head| - 1];
        }
      }
    }
  }

  /** Turns every backslash-`c` pair back into `c`. */
  function Unescape(s: string, c: char): string
  {
    Replace(s, ['\\', c], [c])
  }

  lemma {:induction false} EscapedNeverStartsWith(s: string, c: char)
    requires c != '\\'
    ensures |ReplaceChar(s, c, ['\\', c])| > 0 ==> ReplaceChar(s, c, ['\\', c])[0] != c
  {
    if |s| > 0 {
      var head := if s[0] == c then ['\\', c] else [s[0]];
      assert ReplaceChar(s, c, ['\\', c]) == head + ReplaceChar(s[1..], c, ['\\', c]);
    }
  }

  /** Unescaping an escaped string gives back the string. */
  lemma {:induction false} UnescapeEscapeChar(s: string, c: char)
    requires c != '\\'
    ensures Unescape(Escape(s, c), c) == s
    decreases |s|
  {
    if |s| > 0 {
      UnescapeEscapeChar(s[1..], c);
      var tail := ReplaceChar(s[1..], c, ['\\', c]);
      EscapedNeverStartsWith(s[1..], c);
      if s[0] == c {
        var e := ['\\', c] + tail;
        assert Escape(s, c) == e;
        assert e[..2] == ['\\', c] && e[2..] == tail;
      } else {
        var e := [s[0]] + tail;
        assert Escape(s, c) == e;
        assert e[1..] == tail;
        assert |e| >= 2 ==> e[1] == tail[0];
        assert !(|e| >= 2 && e[..2] == ['\\', c]);
      }
      assert s == [s[0]] + s[1..];
    }
  }

  /** Escapes every double quote with a backslash. */
  function EscapeQuotes(s: string): (r: string)
    ensures forall i :: 0 <= i < |r| && r[i] == '"' ==> i > 0 && r[i - 1] == '\\'
  {
    Escape(s, '"')
  }

  /** Turns every backslash-quote pair back into a quote. */
  function UnescapeQuotes(s: string): string
  {
    Unescape(s, '"')
  }

  lemma UnescapeEscape(s: string)
    ensures UnescapeQuotes(EscapeQuotes(s)) == s
  {
    UnescapeEscapeChar(s, '"');
  }

  /** Escaping what was unescaped is idempotent: the label clean-up of the
    * Wikidata cleaner does not change an already cleaned label. */
  lemma EscapeUnescapeIdempotent(s: string)
    ensures EscapeQuotes(UnescapeQuotes(EscapeQuotes(UnescapeQuotes(s))))
         == EscapeQuotes(UnescapeQuotes(s))
  {
    UnescapeEscape(UnescapeQuotes(s));
  }

  predicate StartsWith(s: string, prefix: string)
  {
    |prefix| <= |s| && s[..|prefix|] == prefix
  }

  predicate EndsWith(s: string, suffix: string)
  {
    |suffix| <= |s| && s[|s| - |suffix|..] == suffix
  }

  /** Python `s[n:]` for n >= 0: empty when n is past the end. */
  function Drop(s: string, n: nat): (r: string)
    ensures |r| == if n <= |s| then |s| - n else 0
    ensures forall i :: 0 <= i < |r| ==> r[i] == s[n + i]
  {
    if n <= |s| then s[n..] else ""
  }

  /** Python `s[:n]` for n >= 0. */
  function Take(s: string, n: nat): (r: string)
    ensures |r| == if n <= |s| then n else |s|
    ensures StartsWith(s, r)
  {
    if n <= |s| then s[..n] else s
  }

  function LowerChar(c: char): char
  {
    if 'A' <= c <= 'Z' then (c as int + 32) as char else c
  }

  /** Lower-casing, for the ASCII letters. */
  function Lower(s: string): (r: string)
    ensures |r| == |s|
    ensures forall i :: 0 <= i < |s| ==> r[i] == LowerChar(s[i])
  {
    if |s| == 0 then "" else [LowerChar(s[0])] + Lower(s[1..])
  }

  predicate NoUpper(s: string)
  {
    forall i :: 0 <= i < |s| ==> !('A' <= s[i] <= 'Z')
  }

  /** Lower-casing leaves a string without capitals as it is. */
  lemma LowerOfNoUpper(s: string)
    requires NoUpper(s)
    ensures Lower(s) == s
  {
  }

  function UpperChar(c: char): char
  {
    if 'a' <= c <= 'z' then (c as int - 32) as char else c
  }

  /** Upper-casing, for the ASCII letters. */
  function Upper(s: string): (r: string)
    ensures |r| == |s|
    ensures forall i :: 0 <= i < |s| ==> r[i] == UpperChar(s[i])
  {
    if |s| == 0 then "" else [UpperChar(s[0])] + Upper(s[1..])
  }

  /** Java's `String.trim`: characters up to U+0020 are whitespace. */
  predicate IsJavaSpace(c: char) { c <= ' ' }

  function TrimStart(s: string): (r: string)
    ensures |r| <= |s| && r == s[|s| - |r|..]
    ensures |r| > 0 ==> !IsJavaSpace(r[0])
    ensures forall i :: 0 <= i < |s| - |r| ==> IsJavaSpace(s[i])
  {
    if |s| > 0 && IsJavaSpace(s[0]) then TrimStart(s[1..]) else s
  }

  function TrimEnd(s: string): (r: string)
    ensures |r| <= |s| && r == s[..|r|]
    ensures |r| > 0 ==> !IsJavaSpace(r[|r| - 1])
    ensures forall i :: |r| <= i < |s| ==> IsJavaSpace(s[i])
  {
    if |s| > 0 && IsJavaSpace(s[|s| - 1]) then TrimEnd(s[..|s| - 1]) else s
  }

  /** Java `s.trim()`: the longest slice that neither starts nor ends with a
    * space or control character. */
  function Trim(s: string): (r: string)
    ensures exists i, j :: 0 <= i <= j <= |s| && r == s[i..j]
    ensures |r| > 0 ==> !IsJavaSpace(r[0]) && !IsJavaSpace(r[|r| - 1])
    ensures (forall i :: 0 <= i < |s| ==> IsJavaSpace(s[i])) <==> r == ""
  {
    var t := TrimStart(s);
    var r := TrimEnd(t);
    assert r == s[|s| - |t|..|s| - |t| + |r|];
    r
  }

  /** A character that does not occur in a string does not occur in its trim. */
  lemma TrimWithout(s: string, c: char)
    requires c !in s
    ensures c !in Trim(s)
  {
    var r := Trim(s);
    var i, j :| 0 <= i <= j <= |s| && r == s[i..j];
    SliceWithout(s, i, j, c);
  }

  lemma SliceWithout(s: string, i: nat, j: nat, c: char)
    requires i <= j <= |s| && c !in s
    ensures c !in s[i..j]
  {
  }

  function DigitChar(d: nat): (c: char)
    requires d < 10
    ensures '0' <= c <= '9'
  {
    ('0' as int + d) as char
  }

  /** Decimal notation of a natural number, as Python's `str` and Java's
    * string concatenation print it. */
  function NatToString(n: nat): (r: string)
    ensures |r| >= 1
    ensures n >= 10 ==> |r| >= 2
    ensures forall i :: 0 <= i < |r| ==> '0' <= r[i] <= '9'
  {
    if n < 10 then [DigitChar(n)] else NatToString(n / 10) + [DigitChar(n % 10)]
  }

  lemma {:induction false} NatToStringInjective(a: nat, b: nat)
    requires NatToString(a) == NatToString(b)
    ensures a == b
    decreases a
  {
    var ra, rb := NatToString(a), NatToString(b);
    if a >= 10 && b >= 10 {
      assert ra[..|ra| - 1] == NatToString(a / 10);
      assert rb[..|rb| - 1] == NatToString(b / 10);
      NatToStringInjective(a / 10, b / 10);
      assert DigitChar(a % 10) == ra[|ra| - 1] == DigitChar(b % 10);
    } else if a < 10 && b < 10 {
      assert DigitChar(a) == DigitChar(b);
    }
  }

  function IntToString(i: int): (r: string)
    ensures |r| >= 1
  {
    if i < 0 then "-" + NatToString(-i) else NatToString(i)
  }

  lemma IntToStringInjective(a: int, b: int)
    requires IntToString(a) == IntToString(b)
    ensures a == b
  {
    IntToStringSign(a);
    IntToStringSign(b);
    if a < 0 {
      NegativeToStringInjective(a, b);
    } else {
      NatToStringInjective(a, b);
    }
  }

  lemma NegativeToStringInjective(a: int, b: int)
    requires a < 0 && b < 0 && IntToString(a) == IntToString(b)
    ensures a == b
  {
    var ra, rb := IntToString(a), IntToString(b);
    assert ra[1..] == NatToString(-a) && rb[1..] == NatToString(-b);
    NatToStringInjective(-a, -b);
  }

  lemma IntToStringSign(a: int)
    ensures IntToString(a)[0] == '-' <==> a < 0
  {
    if a >= 0 {
      assert '0' <= NatToString(a)[0] <= '9';
    }
  }
}
