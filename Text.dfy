/**
 * Ordinal string operations of the .NET base library that the scenario tests use:
 * prefix and suffix tests, substring search (`IndexOf`, `Contains`),
 * `Split` on one character, `string.Join`, and ASCII case mapping.
 */
module Text {

  /** `value` occurs in `s` starting at index `i`. */
  predicate OccursAt(s: string, value: string, i: nat) {
    i + |value| <= |s| && s[i..i + |value|] == value
  }

  /** `s.StartsWith(value, StringComparison.Ordinal)`. */
  predicate StartsWith(s: string, value: string) {
    OccursAt(s, value, 0)
  }

  /** `s.EndsWith(value)` compared ordinally. */
  predicate EndsWith(s: string, value: string) {
    |value| <= |s| && s[|s| - |value|..] == value
  }

  /**
   * `s.IndexOf(value, from)`: the first index at or after `from` where `value`
   * occurs, or -1. `from` beyond the end throws in .NET, hence the precondition.
   */
  function IndexOf(s: string, value: string, from: nat): (r: int)
    requires from <= |s|
    ensures r == -1 || (from <= r && OccursAt(s, value, r))
    ensures r >= 0 ==> forall j :: from <= j < r ==> !OccursAt(s, value, j)
    ensures r == -1 ==> forall j :: from <= j <= |s| ==> !OccursAt(s, value, j)
    decreases |s| - from
  {
    if OccursAt(s, value, from) then from
    else if from == |s| then -1
    else IndexOf(s, value, from + 1)
  }

  /** `s.Contains(value)` (ordinal). */
  predicate Contains(s: string, value: string)
    ensures Contains(s, value) <==> exists i: nat :: OccursAt(s, value, i)
  {
    IndexOf(s, value, 0) >= 0
  }

  /**
   * `s.Split(c)`: the pieces between occurrences of `c`; `n` separators give
   * `n + 1` pieces, empty ones included.
   */
  function Split(s: string, c: char): (parts: seq<string>)
    ensures |parts| >= 1
  {
    if |s| == 0 then [""]
    else
      var rest := Split(s[1..], c);
      if s[0] == c then [""] + rest
      else [[s[0]] + rest[0]] + rest[1..]
  }

  /** `string.Join(sep, parts)`. */
  function Join(sep: string, parts: seq<string>): string {
    if |parts| == 0 then ""
    else if |parts| == 1 then parts[0]
    else parts[0] + sep + Join(sep, parts[1..])
  }

  function Last<T>(xs: seq<T>): T
    requires |xs| > 0
  {
    xs[|xs| - 1]
  }

  /** Joining the pieces of a split with the separator gives back the string. */
  lemma {:induction false} JoinSplit(s: string, c: char)
    ensures Join([c], Split(s, c)) == s
  {
    if |s| > 0 {
      var rest := Split(s[1..], c);
      JoinSplit(s[1..], c);
      if s[0] == c {
        assert Split(s, c) == [""] + rest;
        assert ([""] + rest)[1..] == rest;
        assert s == [c] + s[1..];
      } else if |rest| == 1 {
        assert Split(s, c) == [[s[0]] + rest[0]];
        assert s == [s[0]] + s[1..];
      } else {
        var parts := [[s[0]] + rest[0]] + rest[1..];
        assert parts[1..] == rest[1..];
        assert Join([c], rest) == rest[0] + [c] + Join([c], rest[1..]);
        assert s == [s[0]] + s[1..];
      }
    }
  }

  /** No piece holds the separator, and there is one piece exactly when `s` has no separator. */
  lemma {:induction false} SplitPieces(s: string, c: char)
    ensures forall k :: 0 <= k < |Split(s, c)| ==> c !in Split(s, c)[k]
    ensures |Split(s, c)| == 1 <==> c !in s
  {
    if |s| > 0 {
      SplitPieces(s[1..], c);
      assert s == [s[0]] + s[1..];
    }
  }

  /** A string without the separator splits into itself. */
  lemma {:induction false} SplitWithout(s: string, c: char)
    requires c !in s
    ensures Split(s, c) == [s]
  {
    if |s| > 0 {
      SplitWithout(s[1..], c);
      assert s == [s[0]] + s[1..];
    }
  }

  /** The last piece of `x + [c] + y` is `y` when `y` holds no `c`. */
  lemma {:induction false} SplitLastAfter(x: string, c: char, y: string)
    requires c !in y
    ensures Last(Split(x + [c] + y, c)) == y
  {
    if |x| == 0 {
      assert x + [c] + y == [c] + y;
      assert ([c] + y)[1..] == y;
      SplitWithout(y, c);
    } else {
      assert (x + [c] + y)[1..] == x[1..] + [c] + y;
      SplitLastAfter(x[1..], c, y);
      var rest := Split(x[1..] + [c] + y, c);
      assert c in x[1..] + [c] + y;
      SplitPieces(x[1..] + [c] + y, c);
      assert |rest| >= 2;
    }
  }

  /** `s.Split(c).Last()`: the text after the last `c`, or all of `s`. */
  function LastSegment(s: string, c: char): string {
    Last(Split(s, c))
  }

  /** The last segment holds no separator, ends `s`, and is preceded by a separator unless it is all of `s`. */
  lemma LastSegmentIsSuffix(s: string, c: char)
    ensures var r := LastSegment(s, c);
      && c !in r
      && EndsWith(s, r)
      && (c !in s ==> r == s)
      && (|r| < |s| ==> s[|s| - |r| - 1] == c)
  {
    SplitPieces(s, c);
    LastSegmentShape(s, c);
    if c !in s {
      SplitWithout(s, c);
    }
  }

  /** One step of `Split` seen from its last piece. */
  lemma LastSplitStep(s: string, c: char)
    requires |s| > 0
    ensures Last(Split(s, c)) == if s[0] != c && c !in s[1..] then s else Last(Split(s[1..], c))
  {
    var tail := s[1..];
    SplitPieces(tail, c);
    if s[0] != c && c !in tail {
      SplitWithout(tail, c);
      assert [s[0]] + tail == s;
    }
  }

  /** A suffix of `s[1..]` is a suffix of `s`, preceded by the same character. */
  lemma SuffixOfTail(s: string, r: string)
    requires |s| > 0 && EndsWith(s[1..], r)
    ensures EndsWith(s, r)
    ensures |r| < |s| - 1 ==> s[|s| - |r| - 1] == s[1..][|s| - 1 - |r| - 1]
  {
    assert s[1..][|s| - 1 - |r|..] == s[|s| - |r|..];
  }

  lemma {:induction false} LastSegmentShape(s: string, c: char)
    ensures EndsWith(s, Last(Split(s, c)))
    ensures |Last(Split(s, c))| < |s| ==> s[|s| - |Last(Split(s, c))| - 1] == c
  {
    if |s| > 0 {
      var tail := s[1..];
      LastSplitStep(s, c);
      if !(s[0] != c && c !in tail) {
        LastSegmentShape(tail, c);
        var r := Last(Split(tail, c));
        SuffixOfTail(s, r);
        if |r| == |tail| {
          SplitPieces(tail, c);
          assert r == tail;
        }
      }
    }
  }

  /** The first piece of a split is a prefix of the string. */
  lemma {:induction false} SplitHeadPrefix(s: string, c: char)
    ensures StartsWith(s, Split(s, c)[0])
  {
    if |s| > 0 && s[0] != c {
      var rest := Split(s[1..], c);
      SplitHeadPrefix(s[1..], c);
      assert Split(s, c)[0] == [s[0]] + rest[0];
      assert s[..|rest[0]| + 1] == [s[0]] + s[1..][..|rest[0]|];
    }
  }

  /** After the first piece comes the separator, and the remaining pieces split the rest. */
  lemma {:induction false} SplitHeadRest(s: string, c: char)
    requires c in s
    ensures |Split(s, c)[0]| < |s| && s[|Split(s, c)[0]|] == c
    ensures Split(s, c)[1..] == Split(s[|Split(s, c)[0]| + 1..], c)
  {
    var rest := Split(s[1..], c);
    if s[0] != c {
      assert c in s[1..];
      SplitHeadRest(s[1..], c);
      var p := rest[0];
      assert Split(s, c) == [[s[0]] + p] + rest[1..];
      assert s[|p| + 1] == s[1..][|p|];
      assert s[|p| + 2..] == s[1..][|p| + 1..];
    }
  }

  /** The second piece lies between the first separator and the next one (or the end). */
  lemma SecondSegment(s: string, c: char)
    requires c in s
    requires |Split(s, c)| >= 2
    ensures exists k :: 0 <= k < |s| && s[k] == c && c !in s[..k]
                        && StartsWith(s[k + 1..], Split(s, c)[1])
                        && (k + 1 + |Split(s, c)[1]| == |s| || s[k + 1 + |Split(s, c)[1]|] == c)
  {
    var p := Split(s, c)[0];
    SplitPieces(s, c);
    SplitHeadPrefix(s, c);
    SplitHeadRest(s, c);
    var k := |p|;
    var rest := s[k + 1..];
    var a := Split(s, c)[1];
    assert a == Split(rest, c)[0];
    SplitHeadPrefix(rest, c);
    assert s[..k] == p;
    SplitHeadRestOrAll(rest, c);
    if |a| < |rest| {
      assert s[k + 1 + |a|] == rest[|a|];
    }
    assert 0 <= k < |s| && s[k] == c && c !in s[..k]
           && StartsWith(s[k + 1..], a)
           && (k + 1 + |a| == |s| || s[k + 1 + |a|] == c);
  }

  /** The first piece is the whole string exactly when the separator does not occur. */
  lemma SplitHeadRestOrAll(s: string, c: char)
    ensures c !in s ==> Split(s, c)[0] == s
    ensures c in s ==> |Split(s, c)[0]| < |s| && s[|Split(s, c)[0]|] == c
  {
    if c !in s {
      SplitWithout(s, c);
    } else {
      SplitHeadRest(s, c);
    }
  }

  /** Upper-case mapping of ASCII letters; every other character is its own image. */
  function UpperAscii(ch: char): char {
    if 'a' <= ch <= 'z' then (ch as int - 32) as char else ch
  }

  /** Lower-case mapping of ASCII letters; every other character is its own image. */
  function LowerAscii(ch: char): char {
    if 'A' <= ch <= 'Z' then (ch as int + 32) as char else ch
  }

  /** `s.ToLowerInvariant()`, restricted to ASCII letters. */
  function ToLower(s: string): (r: string)
    ensures |r| == |s|
    ensures forall i :: 0 <= i < |s| ==> r[i] == LowerAscii(s[i])
    ensures forall i :: 0 <= i < |s| ==> !('A' <= r[i] <= 'Z')
  {
    if |s| == 0 then "" else [LowerAscii(s[0])] + ToLower(s[1..])
  }

  /** `s.StartsWith(value, StringComparison.OrdinalIgnoreCase)`, with ASCII case folding. */
  predicate StartsWithIgnoreCase(s: string, value: string) {
    |value| <= |s| && forall i :: 0 <= i < |value| ==> UpperAscii(s[i]) == UpperAscii(value[i])
  }

  /** An exact prefix is a prefix ignoring case. */
  lemma StartsWithIgnoreCaseExact(s: string, value: string)
    requires StartsWith(s, value)
    ensures StartsWithIgnoreCase(s, value)
  {
    forall i | 0 <= i < |value| ensures UpperAscii(s[i]) == UpperAscii(value[i]) {
      assert s[..|value|][i] == s[i];
    }
  }

  /** A first character that differs even after case folding rules out the prefix. */
  lemma NotStartsWithIgnoreCaseHead(s: string, value: string)
    requires |s| > 0 && |value| > 0 && UpperAscii(s[0]) != UpperAscii(value[0])
    ensures !StartsWithIgnoreCase(s, value)
  {
  }
}
