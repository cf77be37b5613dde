/**
 * String helpers with the meaning Python gives them: substring tests,
 * "".join, slicing into fixed-size chunks, str.strip with one character,
 * str(n) for a natural number, and the posixpath helpers join and splitext.
 */
module Text {

  predicate StartsWith(s: string, t: string)
  {
    |t| <= |s| && s[..|t|] == t
  }

  /** Python's `t in s` for two strings. */
  predicate Contains(s: string, t: string)
  {
    exists i :: 0 <= i <= |s| && StartsWith(s[i..], t)
  }

  lemma ContainsMiddle(a: string, t: string, b: string)
    ensures Contains(a + t + b, t)
  {
    assert (a + t + b)[|a|..] == t + b;
    assert StartsWith((a + t + b)[|a|..], t);
  }

  lemma ContainsPrefix(t: string, b: string)
    ensures Contains(t + b, t)
  {
    ContainsMiddle("", t, b);
    assert "" + t + b == t + b;
  }

  lemma ContainsTrans(s: string, t: string, u: string)
    requires Contains(s, t) && Contains(t, u)
    ensures Contains(s, u)
  {
    var i :| 0 <= i <= |s| && StartsWith(s[i..], t);
    var j :| 0 <= j <= |t| && StartsWith(t[j..], u);
    assert s[i..][..|t|] == t;
    forall k | 0 <= k < |u|
      ensures s[i + j..][k] == u[k]
    {
      assert s[i + j + k] == s[i..][..|t|][j + k] == t[j + k] == t[j..][..|u|][k];
    }
    assert s[i + j..][..|u|] == u;
  }

  lemma AppendAssoc<T>(a: seq<T>, b: seq<T>, c: seq<T>)
    ensures a + b + c == a + (b + c)
  {
  }

  /** "".join(ss) */
  function Concat(ss: seq<string>): string
  {
    if ss == [] then "" else ss[0] + Concat(ss[1..])
  }

  lemma {:induction false} ConcatAppend(a: seq<string>, b: seq<string>)
    ensures Concat(a + b) == Concat(a) + Concat(b)
  {
    if a == [] {
      assert a + b == b;
    } else {
      assert (a + b)[1..] == a[1..] + b;
      ConcatAppend(a[1..], b);
    }
  }

  lemma ConcatSnoc(a: seq<string>, x: string)
    ensures Concat(a + [x]) == Concat(a) + x
  {
    ConcatAppend(a, [x]);
    assert Concat([x]) == x + Concat([]);
  }

  /** The chunk size of the memory tools (`chunk_size = 500`). */
  const ChunkSize: nat := 500

  function Min(a: nat, b: nat): nat { if a <= b then a else b }

  /** `[s[i:i+500] for i in range(0, len(s), 500)]` */
  function Slices(s: string): seq<string>
    decreases |s|
  {
    if s == [] then [] else [s[..Min(ChunkSize, |s|)]] + Slices(s[Min(ChunkSize, |s|)..])
  }

  /** Slicing loses nothing, reorders nothing, and yields ceil(len/500) non-empty chunks of at most 500 characters. */
  lemma {:induction false} SlicesProperties(s: string)
    ensures Concat(Slices(s)) == s
    ensures |Slices(s)| == (|s| + ChunkSize - 1) / ChunkSize
    ensures forall k :: 0 <= k < |Slices(s)| ==> 0 < |Slices(s)[k]| <= ChunkSize
    decreases |s|
  {
    if s != [] {
      var m := Min(ChunkSize, |s|);
      SlicesProperties(s[m..]);
      assert s[..m] + s[m..] == s;
      assert Slices(s)[1..] == Slices(s[m..]);
      forall k | 0 <= k < |Slices(s)|
        ensures 0 < |Slices(s)[k]| <= ChunkSize
      {
        if k > 0 { assert Slices(s)[k] == Slices(s[m..])[k - 1]; }
      }
    }
  }

  /** A text of at most 500 characters is one slice, except the empty text, which has none. */
  lemma ShortSlices(s: string)
    requires |s| <= ChunkSize
    ensures Slices(s) == if s == [] then [] else [s]
  {
    assert s[..|s|] == s;
    assert s[|s|..] == [];
  }

  /** sep.join(xs) */
  function Join(sep: string, xs: seq<string>): string
  {
    if xs == [] then "" else if |xs| == 1 then xs[0] else xs[0] + sep + Join(sep, xs[1..])
  }

  /** "\n".join(xs) */
  function JoinLines(xs: seq<string>): string
  {
    Join("\n", xs)
  }

  /**
   * Item k of a join stands between separators: the items before it and a
   * separator precede it (nothing when it is first), and a separator and the
   * items after it follow it (nothing when it is last).
   */
  lemma {:induction false} JoinAt(sep: string, xs: seq<string>, k: nat)
    requires k < |xs|
    ensures Join(sep, xs) ==
      (if k == 0 then "" else Join(sep, xs[..k]) + sep) + xs[k]
      + (if k + 1 == |xs| then "" else sep + Join(sep, xs[k + 1..]))
  {
    if k == 0 {
      if |xs| > 1 {
        assert Join(sep, xs) == xs[0] + (sep + Join(sep, xs[1..]));
      }
    } else {
      var tail := xs[1..];
      JoinAt(sep, tail, k - 1);
      assert tail[k - 1] == xs[k] && tail[k..] == xs[k + 1..];
      var after := if k + 1 == |xs| then "" else sep + Join(sep, xs[k + 1..]);
      var front := if k == 1 then "" else Join(sep, tail[..k - 1]) + sep;
      assert Join(sep, tail) == front + xs[k] + after;
      if k > 1 {
        assert xs[..k][1..] == tail[..k - 1];
        assert Join(sep, xs[..k]) == xs[0] + sep + Join(sep, tail[..k - 1]);
      } else {
        assert Join(sep, xs[..k]) == xs[0];
      }
      var p := xs[0] + sep;
      assert Join(sep, xs[..k]) + sep == p + front;
      assert Join(sep, xs) == p + (front + xs[k] + after);
      AppendAssoc(p, front + xs[k], after);
      AppendAssoc(p, front, xs[k]);
    }
  }

  /** Every joined item appears in the result. */
  lemma {:induction false} JoinContains(sep: string, xs: seq<string>, k: nat)
    requires k < |xs|
    ensures Contains(Join(sep, xs), xs[k])
  {
    if |xs| == 1 {
      ContainsMiddle("", xs[0], "");
      assert "" + xs[0] + "" == xs[0];
    } else if k == 0 {
      ContainsPrefix(xs[0], sep + Join(sep, xs[1..]));
      assert xs[0] + sep + Join(sep, xs[1..]) == xs[0] + (sep + Join(sep, xs[1..]));
    } else {
      JoinContains(sep, xs[1..], k - 1);
      var rest := Join(sep, xs[1..]);
      var p := xs[0] + sep;
      var i :| 0 <= i <= |rest| && StartsWith(rest[i..], xs[k]);
      assert Join(sep, xs) == p + rest;
      assert (p + rest)[|p| + i..] == rest[i..];
    }
  }

  /** Python's `s.lstrip(c)` for one character c. */
  function StripLeft(s: string, c: char): (r: string)
    ensures |r| <= |s| && r == s[|s| - |r|..]
    ensures r == [] || r[0] != c
  {
    if |s| > 0 && s[0] == c then StripLeft(s[1..], c) else s
  }

  /** lstrip(c) removes copies of c only. */
  lemma {:induction false} StripLeftRemovesOnly(s: string, c: char)
    ensures forall k :: 0 <= k < |s| - |StripLeft(s, c)| ==> s[k] == c
  {
    if |s| > 0 && s[0] == c {
      StripLeftRemovesOnly(s[1..], c);
      assert forall k :: 1 <= k < |s| ==> s[k] == s[1..][k - 1];
    }
  }

  /** Python's `s.rstrip(c)` for one character c. */
  function StripRight(s: string, c: char): (r: string)
    ensures |r| <= |s| && r == s[..|r|]
    ensures r == [] || r[|r| - 1] != c
  {
    if |s| > 0 && s[|s| - 1] == c then StripRight(s[..|s| - 1], c) else s
  }

  /** rstrip(c) removes copies of c only. */
  lemma {:induction false} StripRightRemovesOnly(s: string, c: char)
    ensures forall k :: |StripRight(s, c)| <= k < |s| ==> s[k] == c
  {
    if |s| > 0 && s[|s| - 1] == c {
      StripRightRemovesOnly(s[..|s| - 1], c);
      assert forall k :: 0 <= k < |s| - 1 ==> s[k] == s[..|s| - 1][k];
    }
  }

  /** Python's `s.strip(c)` for one character c. */
  function Strip(s: string, c: char): string
  {
    StripRight(StripLeft(s, c), c)
  }

  /** strip(c) removes every copy of c at both ends and nothing else, so a second strip changes nothing. */
  lemma StripIdempotent(s: string, c: char)
    ensures Strip(Strip(s, c), c) == Strip(s, c)
  {
    var _, _ := StripEnds(s, c);
    StripFixed(Strip(s, c), c);
  }

  /** What strip(c) returns neither starts nor ends with c, and is a contiguous piece of its input. */
  lemma StripEnds(s: string, c: char) returns (i: nat, j: nat)
    ensures var r := Strip(s, c);
            && (r == [] || (r[0] != c && r[|r| - 1] != c))
            && i <= j <= |s| && r == s[i..j]
  {
    var l := StripLeft(s, c);
    var r := StripRight(l, c);
    i, j := |s| - |l|, |s| - |l| + |r|;
    assert r == s[i..j] by {
      assert l == s[i..];
      assert r == l[..|r|];
      assert s[i..][..|r|] == s[i..j];
    }
    assert r == [] || r[0] != c by {
      if r != [] {
        assert r[0] == l[0];
      }
    }
  }

  /** A string that neither starts nor ends with c is left alone by strip(c). */
  lemma StripFixed(t: string, c: char)
    requires t == [] || (t[0] != c && t[|t| - 1] != c)
    ensures Strip(t, c) == t
  {
    assert StripLeft(t, c) == t;
  }

  /** Lower-casing of ASCII letters (Python's str.lower restricted to A-Z). */
  function LowerChar(ch: char): char
  {
    if 'A' <= ch <= 'Z' then (ch as int + 32) as char else ch
  }

  function Lower(s: string): (r: string)
    ensures |r| == |s|
  {
    if s == [] then [] else [LowerChar(s[0])] + Lower(s[1..])
  }

  /** Lowering is character by character. */
  lemma {:induction false} LowerChars(s: string)
    ensures forall k :: 0 <= k < |s| ==> Lower(s)[k] == LowerChar(s[k])
  {
    if s != [] {
      LowerChars(s[1..]);
    }
  }

  lemma LowerIdempotent(s: string)
    ensures Lower(Lower(s)) == Lower(s)
  {
    LowerChars(s);
    LowerChars(Lower(s));
    assert forall k :: 0 <= k < |s| ==> LowerChar(LowerChar(s[k])) == LowerChar(s[k]);
  }

  function DigitChar(d: nat): char
    requires d < 10
  {
    ['0', '1', '2', '3', '4', '5', '6', '7', '8', '9'][d]
  }

  /** The number a string of decimal digits denotes, most significant digit first. */
  function DigitsValue(r: string): nat
    requires forall k :: 0 <= k < |r| ==> '0' <= r[k] <= '9'
  {
    if r == [] then 0 else 10 * DigitsValue(r[..|r| - 1]) + (r[|r| - 1] as int - '0' as int)
  }

  /** str(n) for a natural number: decimal digits, no leading zero, denoting `n`. */
  function NatToString(n: nat): (r: string)
    ensures r != []
    ensures forall k :: 0 <= k < |r| ==> '0' <= r[k] <= '9'
    ensures |r| > 1 ==> r[0] != '0'
    ensures DigitsValue(r) == n
  {
    if n < 10 then [DigitChar(n)]
    else
      var front := NatToString(n / 10);
      assert (front + [DigitChar(n % 10)])[..|front|] == front;
      front + [DigitChar(n % 10)]
  }

  /** posixpath.join(a, b) */
  function PathJoin(a: string, b: string): string
  {
    if StartsWith(b, "/") then b
    else if a == [] || a[|a| - 1] == '/' then a + b
    else a + "/" + b
  }

  /** The last index of c in s, or -1 (Python's s.rfind(c)). */
  function RFind(s: string, c: char): (r: int)
    ensures -1 <= r < |s|
    ensures r >= 0 ==> s[r] == c
  {
    if s == [] then -1 else if s[|s| - 1] == c then |s| - 1 else RFind(s[..|s| - 1], c)
  }

  /** Nothing after the index RFind returns is the character sought. */
  lemma {:induction false} RFindLast(s: string, c: char)
    ensures forall k :: RFind(s, c) < k < |s| ==> s[k] != c
  {
    if s != [] && s[|s| - 1] != c {
      RFindLast(s[..|s| - 1], c);
      assert forall k :: RFind(s, c) < k < |s| - 1 ==> s[k] == s[..|s| - 1][k];
    }
  }

  /** The string is made of dots only. */
  predicate AllDots(s: string)
  {
    forall k :: 0 <= k < |s| ==> s[k] == '.'
  }

  /**
   * `os.path.splitext(p)[1]` on a POSIX path: from the last dot of the last
   * path component, provided that component has something other than dots
   * before it; otherwise the empty string.
   */
  function Ext(p: string): string
  {
    var si := RFind(p, '/');
    var di := RFind(p, '.');
    if di > si && !AllDots(p[si + 1..di]) then p[di..] else ""
  }

  /** An extension is empty or a suffix of the path that starts with its only dot and holds no separator. */
  lemma ExtShape(p: string)
    ensures var e := Ext(p);
      && (e == [] || (e[0] == '.' && e == p[|p| - |e|..]))
      && (forall k :: 0 < k < |e| ==> e[k] != '.' && e[k] != '/')
  {
    var si := RFind(p, '/');
    var di := RFind(p, '.');
    if di > si && !AllDots(p[si + 1..di]) {
      var e := p[di..];
      assert e[0] == '.' && e == p[|p| - |e|..];
      forall k | 0 < k < |e| ensures e[k] != '.' && e[k] != '/' {
        RFindLast(p, '/');
        RFindLast(p, '.');
        assert e[k] == p[di + k];
      }
    }
  }
}
