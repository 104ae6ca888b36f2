// The small string and counter helpers of OSMWrangle's `Assistant`. Name-based
// UUIDs (an MD5 hash of the bytes) and random UUIDs are parameters: `hash`
// stands for `UUID.nameUUIDFromBytes(...).toString()`.
module OsmAssistant {
  import opened Wrappers
  import opened Text

  /** `text == null || text.equals("")`. */
  predicate IsNullOrEmpty(text: Option<string>)
  {
    text.None? || text.value == ""
  }

  /** Whether `notifyProgress(numRec)` reports progress: once every thousand
    * records. */
  predicate Notifies(numRec: int)
  {
    numRec % 1000 == 0
  }

  /** Two progress reports are at least a thousand records apart. */
  lemma {:induction false} NotificationsApart(n: int, k: int)
    requires Notifies(n) && 0 < k < 1000
    ensures !Notifies(n + k)
    ensures Notifies(n + 1000)
  {
    var q := n / 1000;
    assert n == q * 1000;
    assert n + k == q * 1000 + k;
    assert (n + k) % 1000 == k;
    assert n + 1000 == (q + 1) * 1000;
  }

  /** `attr.substring(i)` when `attr` is longer than `i`, otherwise null. */
  function GetLanguage(attr: string, i: nat): (lang: Option<string>)
    ensures lang.Some? <==> |attr| > i
    ensures lang.Some? ==> attr == attr[..i] + lang.value && |lang.value| == |attr| - i
  {
    if |attr| > i then Some(attr[i..]) else None
  }

  /** `(val1 + "  " + val2).trim()`. */
  function Concatenate(val1: string, val2: string): (r: string)
    ensures |r| <= |val1| + 2 + |val2|
  {
    Trim(val1 + "  " + val2)
  }

  /** A string that neither starts nor ends with whitespace trims to itself. */
  lemma TrimTrimmed(s: string)
    requires |s| > 0 && !IsJavaSpace(s[0]) && !IsJavaSpace(s[|s| - 1])
    ensures Trim(s) == s
  {
    assert TrimStart(s) == s;
  }

  /** Two values without surrounding whitespace are joined by exactly two
    * spaces. */
  lemma ConcatenateTrimmed(val1: string, val2: string)
    requires |val1| > 0 && |val2| > 0 && Trim(val1) == val1 && Trim(val2) == val2
    ensures Concatenate(val1, val2) == val1 + "  " + val2
  {
    var s := val1 + "  " + val2;
    assert s[0] == val1[0] && s[|s| - 1] == val2[|val2| - 1];
    TrimTrimmed(s);
  }

  /** An empty second value leaves the trimmed first one. */
  lemma ConcatenateEmpty(val1: string)
    ensures Concatenate(val1, "") == Trim(val1)
  {
    var blank := "  ";
    assert IsJavaSpace(blank[0]) && IsJavaSpace(blank[1]);
    assert val1 + blank + "" == val1 + blank;
    TrimAppendSpaces(val1, blank);
  }

  /** Trailing whitespace makes no difference to a trim. */
  lemma TrimAppendSpaces(a: string, b: string)
    requires forall i :: 0 <= i < |b| ==> IsJavaSpace(b[i])
    ensures Trim(a + b) == Trim(a)
  {
    if TrimStart(a) == "" {
      assert forall i :: 0 <= i < |a + b| ==> IsJavaSpace((a + b)[i]);
    } else {
      TrimStartAppend(a, b);
      TrimEndAppendSpaces(TrimStart(a), b);
    }
  }

  lemma {:induction false} TrimStartAppend(a: string, b: string)
    requires TrimStart(a) != ""
    ensures TrimStart(a + b) == TrimStart(a) + b
    decreases |a|
  {
    if IsJavaSpace(a[0]) {
      assert (a + b)[1..] == a[1..] + b;
      TrimStartAppend(a[1..], b);
    }
  }

  lemma {:induction false} TrimEndAppendSpaces(t: string, b: string)
    requires forall i :: 0 <= i < |b| ==> IsJavaSpace(b[i])
    ensures TrimEnd(t + b) == TrimEnd(t)
    decreases |b|
  {
    if |b| == 0 {
      assert t + b == t;
    } else {
      var s := t + b;
      assert s[..|s| - 1] == t + b[..|b| - 1];
      TrimEndAppendSpaces(t, b[..|b| - 1]);
    }
  }

  /** The directory path with a trailing `/`, unless it already ends with the
    * platform separator or `/`; an empty path fails on `charAt(-1)`. */
  function WithTrailingSlash(path: string, separator: char): (r: Result<string, string>)
    ensures r.Failure? <==> path == ""
    ensures r.Success? ==> StartsWith(r.value, path) && |r.value| <= |path| + 1
    ensures r.Success? ==> r.value[|r.value| - 1] in {separator, '/'}
  {
    if path == "" then Failure("StringIndexOutOfBoundsException")
    else if path[|path| - 1] != separator && path[|path| - 1] != '/' then Success(path + "/")
    else Success(path)
  }

  /** Normalising the trailing slash twice changes nothing. */
  lemma TrailingSlashIdempotent(path: string, separator: char)
    requires path != ""
    ensures WithTrailingSlash(WithTrailingSlash(path, separator).value, separator) == WithTrailingSlash(path, separator)
  {
  }

  class Assistant {
    /** The next serial number to hand out (`numberGenerator`). */
    var next: nat

    constructor()
      ensures next == 1
    {
      next := 1;
    }

    /** Returns the current serial number and advances the counter. */
    method GetNextSerial() returns (serial: nat)
      modifies this
      ensures serial == old(next) && next == old(next) + 1
    {
      serial := next;
      next := next + 1;
    }

    /** A name-based UUID of `featureSource + id`; a null id is replaced by
      * the next serial number. */
    method GetUUID(featureSource: string, id: Option<string>, hash: string -> string) returns (uuid: string)
      modifies this
      ensures id.Some? ==> uuid == hash(featureSource + id.value) && next == old(next)
      ensures id.None? ==> uuid == hash(featureSource + NatToString(old(next))) && next == old(next) + 1
    {
      var key := "";
      if id.None? {
        var serial := GetNextSerial();
        key := NatToString(serial);
      } else {
        key := id.value;
      }
      uuid := hash(featureSource + key);
    }

    /** Successive calls return consecutive numbers. */
    method DrawSerials(count: nat) returns (serials: seq<nat>)
      modifies this
      ensures |serials| == count && next == old(next) + count
      ensures forall i :: 0 <= i < count ==> serials[i] == old(next) + i
    {
      serials := [];
      while |serials| < count
        invariant |serials| <= count && next == old(next) + |serials|
        invariant forall i :: 0 <= i < |serials| ==> serials[i] == old(next) + i
      {
        var s := GetNextSerial();
        serials := serials + [s];
      }
    }

    /** A temporary directory below `path`: the path with its trailing slash,
      * then the random UUID and `/`. Creating the directories on disk is
      * not modelled. */
    method CreateDirectory(path: string, separator: char, randomUUID: string) returns (dir: Result<string, string>)
      ensures dir.Failure? <==> path == ""
      ensures dir.Success? ==> dir.value == WithTrailingSlash(path, separator).value + randomUUID + "/"
    {
      if path == "" {
        return Failure("StringIndexOutOfBoundsException");
      }
      var d := path;
      if path[|path| - 1] != separator && path[|path| - 1] != '/' {
        d := path + "/";
      }
      d := d + randomUUID + "/";
      return Success(d);
    }
  }
}
