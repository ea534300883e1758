/**
 * The Python string built-ins that the tools of app/tools.py use:
 * `sub in s`, `s.count(sub)`, `s.split(sep)`, `sep.join(xs)`, `str(n)` and
 * prefix slicing `s[:n]`.
 */
module PyStr {

  /** `sub` occurs in `s` starting at index `i`. */
  predicate OccursAt(s: string, sub: string, i: int)
  {
    0 <= i <= |s| - |sub| && s[i..i + |sub|] == sub
  }

  /** `sub in s`: some window of `s` equals `sub`. */
  predicate Contains(s: string, sub: string)
  {
    exists i | 0 <= i <= |s| - |sub| :: OccursAt(s, sub, i)
  }

  /** `s.count(sub)` for a non-empty `sub`: non-overlapping occurrences, scanned left to right. */
  function StrCount(s: string, sub: string): (n: nat)
    requires |sub| > 0
    ensures n * |sub| <= |s|
    decreases |s|
  {
    if |s| < |sub| then 0
    else if s[..|sub|] == sub then 1 + StrCount(s[|sub|..], sub)
    else StrCount(s[1..], sub)
  }

  /** A slice of a suffix is a slice of the whole. */
  lemma SliceOfSuffix<T>(s: seq<T>, k: nat, lo: nat, hi: nat)
    requires k <= |s| && lo <= hi <= |s| - k
    ensures s[k..][lo..hi] == s[k + lo..k + hi]
  {
  }

  /** `s.count(sub)` is positive exactly when `sub in s`. */
  lemma {:induction false} StrCountPositiveIffContains(s: string, sub: string)
    requires |sub| > 0
    ensures StrCount(s, sub) > 0 <==> Contains(s, sub)
    decreases |s|
  {
    if |s| < |sub| {
    } else if s[..|sub|] == sub {
      assert OccursAt(s, sub, 0);
    } else {
      StrCountPositiveIffContains(s[1..], sub);
      if Contains(s[1..], sub) {
        var i :| 0 <= i <= |s| - 1 - |sub| && OccursAt(s[1..], sub, i);
        SliceOfSuffix(s, 1, i, i + |sub|);
        assert OccursAt(s, sub, i + 1);
      }
      if Contains(s, sub) {
        var i :| 0 <= i <= |s| - |sub| && OccursAt(s, sub, i);
        assert i != 0;
        SliceOfSuffix(s, 1, i - 1, i - 1 + |sub|);
        assert OccursAt(s[1..], sub, i - 1);
      }
    }
  }

  /** The number of times the character `c` occurs in `s`. */
  function CharCount(s: string, c: char): nat
  {
    if s == [] then 0 else (if s[0] == c then 1 else 0) + CharCount(s[1..], c)
  }

  /** `s.split(c)` for a one-character separator: the pieces between separators. */
  function SplitOn(s: string, c: char): (r: seq<string>)
    ensures |r| >= 1
  {
    if s == [] then [""]
    else
      var rest := SplitOn(s[1..], c);
      if s[0] == c then [""] + rest
      else [[s[0]] + rest[0]] + rest[1..]
  }

  /** `sep.join(xs)`. */
  function JoinWith(xs: seq<string>, sep: string): string
  {
    if |xs| == 0 then ""
    else if |xs| == 1 then xs[0]
    else xs[0] + sep + JoinWith(xs[1..], sep)
  }

  /** Splitting yields one more piece than there are separators. */
  lemma {:induction false} SplitOnCount(s: string, c: char)
    ensures |SplitOn(s, c)| == CharCount(s, c) + 1
  {
    if s != [] {
      SplitOnCount(s[1..], c);
    }
  }

  /** No piece of a split contains the separator. */
  lemma {:induction false} SplitOnPiecesFree(s: string, c: char)
    ensures forall i :: 0 <= i < |SplitOn(s, c)| ==> c !in SplitOn(s, c)[i]
  {
    if s != [] {
      SplitOnPiecesFree(s[1..], c);
    }
  }

  /** Joining with a piece in front distributes over its first element. */
  lemma {:induction false} JoinWithPrepend(a: string, x: string, ys: seq<string>, sep: string)
    ensures JoinWith([a + x] + ys, sep) == a + JoinWith([x] + ys, sep)
  {
    if |ys| > 0 {
      assert ([a + x] + ys)[1..] == ys;
      assert ([x] + ys)[1..] == ys;
    }
  }

  /** Joining the pieces of a split with the separator gives back the text. */
  lemma {:induction false} JoinSplitOn(s: string, c: char)
    ensures JoinWith(SplitOn(s, c), [c]) == s
  {
    if s != [] {
      var rest := SplitOn(s[1..], c);
      JoinSplitOn(s[1..], c);
      if s[0] == c {
        assert ([""] + rest)[1..] == rest;
      } else {
        assert rest == [rest[0]] + rest[1..];
        JoinWithPrepend([s[0]], rest[0], rest[1..], [c]);
      }
    }
  }

  /** Splitting text that starts with a separator-free piece. */
  lemma {:induction false} SplitOnFreePrefix(x: string, t: string, c: char)
    requires c !in x
    ensures SplitOn(x + t, c) == [x + SplitOn(t, c)[0]] + SplitOn(t, c)[1..]
    decreases |x|
  {
    if x != [] {
      assert (x + t)[0] == x[0];
      assert (x + t)[1..] == x[1..] + t;
      SplitOnFreePrefix(x[1..], t, c);
      assert [x[0]] + (x[1..] + SplitOn(t, c)[0]) == x + SplitOn(t, c)[0];
    } else {
      var r := SplitOn(t, c);
      assert x + t == t && x + r[0] == r[0];
      assert [r[0]] + r[1..] == r;
    }
  }

  /** Splitting a join of separator-free pieces gives back the pieces. */
  lemma {:induction false} SplitOnJoin(xs: seq<string>, c: char)
    requires |xs| >= 1
    requires forall i :: 0 <= i < |xs| ==> c !in xs[i]
    ensures SplitOn(JoinWith(xs, [c]), c) == xs
  {
    if |xs| == 1 {
      SplitOnFreePrefix(xs[0], "", c);
      assert xs[0] + "" == xs[0];
    } else {
      var tail := JoinWith(xs[1..], [c]);
      SplitOnJoin(xs[1..], c);
      assert ([c] + tail)[0] == c && ([c] + tail)[1..] == tail;
      assert SplitOn([c] + tail, c) == [""] + xs[1..];
      assert JoinWith(xs, [c]) == xs[0] + ([c] + tail);
      SplitOnFreePrefix(xs[0], [c] + tail, c);
      assert xs[0] + "" == xs[0];
      assert ([""] + xs[1..])[1..] == xs[1..];
    }
  }

  /** The total length of a list of strings. */
  function TotalLength(xs: seq<string>): nat
  {
    if xs == [] then 0 else |xs[0]| + TotalLength(xs[1..])
  }

  /** Strings of at least `lo` characters each have a total length of at least `lo` times their number. */
  lemma {:induction false} TotalLengthAtLeast(xs: seq<string>, lo: nat)
    requires forall i :: 0 <= i < |xs| ==> lo <= |xs[i]|
    ensures lo * |xs| <= TotalLength(xs)
  {
    if xs != [] {
      TotalLengthAtLeast(xs[1..], lo);
    }
  }

  /** Strings of at most `hi` characters each have a total length of at most `hi` times their number. */
  lemma {:induction false} TotalLengthAtMost(xs: seq<string>, hi: nat)
    requires forall i :: 0 <= i < |xs| ==> |xs[i]| <= hi
    ensures TotalLength(xs) <= hi * |xs|
  {
    if xs != [] {
      TotalLengthAtMost(xs[1..], hi);
    }
  }

  /** A join adds one separator between each two neighbouring pieces. */
  lemma {:induction false} JoinWithLength(xs: seq<string>, sep: string)
    ensures |JoinWith(xs, sep)| == if xs == [] then 0 else TotalLength(xs) + (|xs| - 1) * |sep|
  {
    if |xs| > 1 {
      JoinWithLength(xs[1..], sep);
    }
  }

  /**
   * Piece i of a join starts after the pieces before it and one separator
   * for each of them, and a separator follows it unless it is the last.
   */
  lemma {:induction false} JoinWithPieceAt(xs: seq<string>, sep: string, i: nat)
    requires i < |xs|
    ensures var o := TotalLength(xs[..i]) + i * |sep|;
            var j := JoinWith(xs, sep);
            && o + |xs[i]| <= |j|
            && j[o..o + |xs[i]|] == xs[i]
            && (i + 1 < |xs| ==> o + |xs[i]| + |sep| <= |j| && j[o + |xs[i]|..o + |xs[i]| + |sep|] == sep)
  {
    var j := JoinWith(xs, sep);
    if i == 0 {
      assert TotalLength(xs[..0]) == 0 by { assert xs[..0] == []; }
      if |xs| > 1 {
        assert j == xs[0] + sep + JoinWith(xs[1..], sep);
        assert j[..|xs[0]|] == xs[0];
        assert j[|xs[0]|..|xs[0]| + |sep|] == sep;
      }
    } else {
      var rest := JoinWith(xs[1..], sep);
      var p := |xs[0]| + |sep|;
      JoinWithPieceAt(xs[1..], sep, i - 1);
      assert j == xs[0] + sep + rest;
      assert xs[..i][1..] == xs[1..][..i - 1];
      assert TotalLength(xs[..i]) == |xs[0]| + TotalLength(xs[1..][..i - 1]);
      assert xs[1..][i - 1] == xs[i];
      var q := TotalLength(xs[1..][..i - 1]) + (i - 1) * |sep|;
      assert TotalLength(xs[..i]) + i * |sep| == p + q;
      assert j[p..] == rest;
      SliceOfSuffix(j, p, q, q + |xs[i]|);
      if i + 1 < |xs| {
        SliceOfSuffix(j, p, q + |xs[i]|, q + |xs[i]| + |sep|);
      }
    }
  }

  /** The decimal digit for `d`. */
  function Digit(d: nat): char
    requires d < 10
  {
    "0123456789"[d]
  }

  /** `str(n)` for a natural number: its decimal digits without leading zeros. */
  function NatToString(n: nat): (r: string)
    ensures |r| >= 1
  {
    if n < 10 then [Digit(n)] else NatToString(n / 10) + [Digit(n % 10)]
  }

  /** The value of a string of decimal digits. */
  function DecimalValue(s: string): nat
    requires forall i :: 0 <= i < |s| ==> '0' <= s[i] <= '9'
  {
    if s == [] then 0 else 10 * DecimalValue(s[..|s| - 1]) + (s[|s| - 1] - '0') as nat
  }

  /** `str(n)` consists of digits and reads back as `n`. */
  lemma {:induction false} NatToStringRoundTrip(n: nat)
    ensures forall i :: 0 <= i < |NatToString(n)| ==> '0' <= NatToString(n)[i] <= '9'
    ensures DecimalValue(NatToString(n)) == n
  {
    if n < 10 {
      DigitValue(n);
    } else {
      var q, d := n / 10, n % 10;
      NatToStringRoundTrip(q);
      DigitValue(d);
      var r := NatToString(n);
      assert r == NatToString(q) + [Digit(d)];
      assert r[..|r| - 1] == NatToString(q) && r[|r| - 1] == Digit(d);
      assert n == 10 * q + d;
    }
  }

  lemma DigitValue(d: nat)
    requires d < 10
    ensures '0' <= Digit(d) <= '9' && (Digit(d) - '0') as nat == d
  {
  }

  /** A number below 10 has one digit, one below 100 at most two. */
  lemma NatToStringShort(n: nat)
    ensures n < 10 ==> |NatToString(n)| == 1
    ensures n < 100 ==> |NatToString(n)| <= 2
  {
  }

  /** `s[:n]` for a sequence (a string or a list). */
  function Take<T>(s: seq<T>, n: nat): (r: seq<T>)
    ensures |r| == if |s| < n then |s| else n
    ensures r <= s
  {
    if |s| <= n then s else s[..n]
  }
}
