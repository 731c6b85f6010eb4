/**
 * The Python `str` operations the modelled code relies on, with Python's
 * semantics: `split` with and without a maximum, `join`, `strip`,
 * `startswith` (written `p <= s`), slicing `s[:n]`, `replace` (every
 * occurrence, left to right) and `find`.
 */
module PyStr {
  import opened Wrappers

  /** The characters Python's `str.strip()` removes when called without arguments. */
  predicate IsSpace(ch: char)
  {
    || '\t' <= ch <= '\r'
    || '\U{1C}' <= ch <= '\U{1F}'
    || ch == ' ' || ch == '\U{85}' || ch == '\U{A0}' || ch == '\U{1680}'
    || '\U{2000}' <= ch <= '\U{200A}'
    || ch == '\U{2028}' || ch == '\U{2029}' || ch == '\U{202F}' || ch == '\U{205F}' || ch == '\U{3000}'
  }

  // ---------------------------------------------------------------- strip

  function TrimLeft(s: string, cs: char -> bool): (r: string)
    ensures |r| <= |s| && r == s[|s| - |r|..]
    ensures r == [] || !cs(r[0])
    ensures forall i :: 0 <= i < |s| - |r| ==> cs(s[i])
  {
    if s != [] && cs(s[0]) then TrimLeft(s[1..], cs) else s
  }

  function TrimRight(s: string, cs: char -> bool): (r: string)
    ensures |r| <= |s| && r == s[..|r|]
    ensures r == [] || !cs(r[|r| - 1])
    ensures forall i :: |r| <= i < |s| ==> cs(s[i])
  {
    if s != [] && cs(s[|s| - 1]) then TrimRight(s[..|s| - 1], cs) else s
  }

  /** `s.strip(chars)`: drop the leading and trailing characters `cs` accepts. */
  function StripChars(s: string, cs: char -> bool): (r: string)
  {
    TrimRight(TrimLeft(s, cs), cs)
  }

  /** `s.strip()` */
  function Strip(s: string): string
  {
    StripChars(s, IsSpace)
  }

  /** Neither the first nor the last character of `s` is one `cs` accepts. */
  predicate IsStripped(s: string, cs: char -> bool)
  {
    s == [] || (!cs(s[0]) && !cs(s[|s| - 1]))
  }

  lemma StripCharsResult(s: string, cs: char -> bool)
    ensures IsStripped(StripChars(s, cs), cs)
  {
    var l := TrimLeft(s, cs);
    var r := TrimRight(l, cs);
    if r != [] {
      assert r[0] == l[0];
    }
  }

  /** Stripping adds no character. */
  lemma StripCharsAddsNothing(s: string, cs: char -> bool, ch: char)
    requires ch !in s
    ensures ch !in StripChars(s, cs)
  {
    var l := TrimLeft(s, cs);
    var r := TrimRight(l, cs);
    forall i | 0 <= i < |r| ensures r[i] != ch {
      assert r[i] == l[i] == s[|s| - |l| + i];
    }
  }

  lemma StripCharsOfStripped(s: string, cs: char -> bool)
    requires IsStripped(s, cs)
    ensures StripChars(s, cs) == s
  {
  }

  /** Stripping a stripped line with a newline appended gives the line back. */
  lemma StripNewline(t: string)
    requires IsStripped(t, IsSpace)
    ensures Strip(t + "\n") == t
  {
    var s := t + "\n";
    if t == [] {
      assert TrimLeft(s, IsSpace) == [];
    } else {
      assert TrimLeft(s, IsSpace) == s;
      assert s[..|s| - 1] == t;
    }
  }

  // ---------------------------------------------------------------- split and join

  /** `sep.join(parts)` for a one-character separator. */
  function Join(parts: seq<string>, c: char): string
  {
    if |parts| == 0 then ""
    else if |parts| == 1 then parts[0]
    else parts[0] + [c] + Join(parts[1..], c)
  }

  /** What a split with at most `m` cuts can produce: no separator in any
      part but the last, and in the last only when all `m` cuts were made. */
  predicate SplitShape(parts: seq<string>, c: char, m: nat)
  {
    && 1 <= |parts| <= m + 1
    && (forall i :: 0 <= i < |parts| - 1 ==> c !in parts[i])
    && (|parts| <= m ==> c !in parts[|parts| - 1])
  }

  /** `s.split(c, m)`: cut at the first `m` occurrences of `c`. */
  function SplitMax(s: string, c: char, m: nat): (r: seq<string>)
    ensures 1 <= |r| <= m + 1
    decreases |s|
  {
    if s == [] then [""]
    else if s[0] == c && m > 0 then [""] + SplitMax(s[1..], c, m - 1)
    else
      var r := SplitMax(s[1..], c, m);
      [[s[0]] + r[0]] + r[1..]
  }

  lemma JoinCons(p: string, rest: seq<string>, c: char)
    requires |rest| >= 1
    ensures Join([p] + rest, c) == p + [c] + Join(rest, c)
  {
    assert ([p] + rest)[1..] == rest;
  }

  lemma JoinPush(x: char, parts: seq<string>, c: char)
    requires |parts| >= 1
    ensures Join([[x] + parts[0]] + parts[1..], c) == [x] + Join(parts, c)
  {
    if |parts| > 1 {
      JoinCons([x] + parts[0], parts[1..], c);
      JoinCons(parts[0], parts[1..], c);
      assert parts == [parts[0]] + parts[1..];
    }
  }

  /** Joining the parts of a split gives the string back. */
  lemma {:induction false} JoinOfSplitMax(s: string, c: char, m: nat)
    ensures Join(SplitMax(s, c, m), c) == s
    decreases |s|
  {
    if s != [] {
      if s[0] == c && m > 0 {
        JoinOfSplitMax(s[1..], c, m - 1);
        JoinCons("", SplitMax(s[1..], c, m - 1), c);
      } else {
        JoinOfSplitMax(s[1..], c, m);
        JoinPush(s[0], SplitMax(s[1..], c, m), c);
      }
    }
  }

  /** Every split has the shape Python's `split` promises. */
  lemma {:induction false} SplitMaxShape(s: string, c: char, m: nat)
    ensures SplitShape(SplitMax(s, c, m), c, m)
    decreases |s|
  {
    if s != [] {
      if s[0] == c && m > 0 {
        SplitMaxShape(s[1..], c, m - 1);
        var r := SplitMax(s[1..], c, m - 1);
        ShapeCons("", r, c, m);
      } else {
        SplitMaxShape(s[1..], c, m);
        var r := SplitMax(s[1..], c, m);
        var parts := SplitMax(s, c, m);
        assert parts == [[s[0]] + r[0]] + r[1..];
        forall k | 0 <= k < |parts| - 1 ensures c !in parts[k] {
          if k > 0 {
            assert parts[k] == r[k];
          }
        }
        if |parts| <= m {
          assert c !in r[|r| - 1];
          if |parts| == 1 {
            assert parts[0] == [s[0]] + r[0];
          } else {
            assert parts[|parts| - 1] == r[|r| - 1];
          }
        }
      }
    }
  }

  lemma ShapeCons(p: string, rest: seq<string>, c: char, m: nat)
    requires m >= 1 && c !in p && SplitShape(rest, c, m - 1)
    ensures SplitShape([p] + rest, c, m)
  {
    var parts := [p] + rest;
    forall k | 0 <= k < |parts| - 1 ensures c !in parts[k] {
      if k > 0 {
        assert parts[k] == rest[k - 1];
      }
    }
    assert parts[|parts| - 1] == rest[|rest| - 1];
  }

  lemma ShapeTail(parts: seq<string>, c: char, m: nat)
    requires SplitShape(parts, c, m) && |parts| > 1
    ensures m >= 1 && SplitShape(parts[1..], c, m - 1)
  {
    var rest := parts[1..];
    forall k | 0 <= k < |rest| - 1 ensures c !in rest[k] {
      assert rest[k] == parts[k + 1];
    }
  }

  /** With no separator to cut at (or none allowed), the split is the whole string. */
  lemma {:induction false} SplitMaxWhole(s: string, c: char, m: nat)
    requires m == 0 || c !in s
    ensures SplitMax(s, c, m) == [s]
    decreases |s|
  {
    if s != [] {
      SplitMaxWhole(s[1..], c, m);
      assert [s[0]] + s[1..] == s;
    }
  }

  /** Splitting a join of parts that have the split shape gives the parts back. */
  lemma {:induction false} SplitOfJoin(parts: seq<string>, c: char, m: nat)
    requires SplitShape(parts, c, m)
    ensures SplitMax(Join(parts, c), c, m) == parts
    decreases |Join(parts, c)|
  {
    if |parts| == 1 {
      SplitMaxWhole(parts[0], c, m);
    } else {
      var rest := parts[1..];
      ShapeTail(parts, c, m);
      JoinCons(parts[0], rest, c);
      assert parts == [parts[0]] + rest;
      if parts[0] == [] {
        var j := Join(rest, c);
        assert Join(parts, c) == [c] + j;
        assert ([c] + j)[1..] == j;
        SplitOfJoin(rest, c, m - 1);
      } else {
        var x, p := parts[0][0], parts[0][1..];
        var shorter := [p] + rest;
        assert parts[0] == [x] + p;
        ShapeCons(p, rest, c, m);
        JoinPush(x, shorter, c);
        assert shorter[1..] == rest;
        assert Join(parts, c) == [x] + Join(shorter, c);
        assert ([x] + Join(shorter, c))[1..] == Join(shorter, c);
        SplitOfJoin(shorter, c, m);
      }
    }
  }

  /** `s.split(c)`: cut at every occurrence (there are at most |s| of them). */
  function Split(s: string, c: char): (r: seq<string>)
  {
    SplitMax(s, c, |s|)
  }

  lemma {:induction false} JoinLength(parts: seq<string>, c: char)
    requires |parts| >= 1
    ensures |Join(parts, c)| >= |parts| - 1
    decreases |parts|
  {
    if |parts| > 1 {
      JoinLength(parts[1..], c);
    }
  }

  /** Splitting a join of separator-free parts gives the parts back. */
  lemma SplitOfJoinAll(parts: seq<string>, c: char)
    requires |parts| >= 1
    requires forall i :: 0 <= i < |parts| ==> c !in parts[i]
    ensures Split(Join(parts, c), c) == parts
  {
    JoinLength(parts, c);
    SplitOfJoin(parts, c, |Join(parts, c)|);
  }

  /** With at least as many cuts allowed as there are characters, the last
      part holds no separator. */
  lemma {:induction false} SplitMaxLast(s: string, c: char, m: nat)
    requires m >= |s|
    ensures var r := SplitMax(s, c, m); c !in r[|r| - 1]
    decreases |s|
  {
    if s != [] {
      if s[0] == c {
        SplitMaxLast(s[1..], c, m - 1);
      } else {
        SplitMaxLast(s[1..], c, m);
      }
    }
  }

  /** No part of a full split holds the separator. */
  lemma SplitParts(s: string, c: char)
    ensures forall i :: 0 <= i < |Split(s, c)| ==> c !in Split(s, c)[i]
  {
    SplitMaxShape(s, c, |s|);
    SplitMaxLast(s, c, |s|);
  }

  /** The first character of a join of at least two parts. */
  lemma JoinFirst(parts: seq<string>, c: char)
    requires |parts| >= 2
    ensures |Join(parts, c)| > 0
    ensures Join(parts, c)[0] == if parts[0] != [] then parts[0][0] else c
  {
    assert Join(parts, c) == parts[0] + [c] + Join(parts[1..], c);
  }

  /** The last character of a join of at least two parts. */
  lemma {:induction false} JoinLast(parts: seq<string>, c: char)
    requires |parts| >= 2
    ensures |Join(parts, c)| > 0
    ensures Join(parts, c)[|Join(parts, c)| - 1] ==
            if parts[|parts| - 1] != [] then parts[|parts| - 1][|parts[|parts| - 1]| - 1] else c
    decreases |parts|
  {
    var j := Join(parts, c);
    assert j == parts[0] + [c] + Join(parts[1..], c);
    if |parts| > 2 {
      JoinLast(parts[1..], c);
    }
  }

  /** Replacing parts of a join other than the first keeps it stripped when
      the last part stays or ends in a non-space. */
  lemma JoinStripped(p: seq<string>, q: seq<string>, c: char)
    requires |p| == |q| >= 2 && p[0] == q[0] && IsStripped(Join(p, c), IsSpace)
    requires q[|q| - 1] == p[|p| - 1] || (q[|q| - 1] != [] && !IsSpace(q[|q| - 1][|q[|q| - 1]| - 1]))
    ensures IsStripped(Join(q, c), IsSpace)
  {
    var j, k := Join(p, c), Join(q, c);
    JoinFirst(p, c);
    JoinFirst(q, c);
    JoinLast(p, c);
    JoinLast(q, c);
    assert k[0] == j[0];
    if q[|q| - 1] == p[|p| - 1] {
      assert k[|k| - 1] == j[|j| - 1];
    }
  }

  /** Replacing one part other than the first keeps a join stripped when
      the part is not the last or ends in a non-space. */
  lemma JoinUpdateStripped(p: seq<string>, i: nat, x: string, c: char)
    requires 0 < i < |p| && IsStripped(Join(p, c), IsSpace)
    requires i < |p| - 1 || (x != [] && !IsSpace(x[|x| - 1]))
    ensures IsStripped(Join(p[i := x], c), IsSpace)
  {
    var q := p[i := x];
    assert q[0] == p[0];
    if i < |p| - 1 {
      assert q[|q| - 1] == p[|p| - 1];
    }
    JoinStripped(p, q, c);
  }

  // ---------------------------------------------------------------- slicing, prefixes

  /** `s[:n]` for n >= 0: never fails on a short string. */
  function Take(s: string, n: nat): (r: string)
    ensures |r| == if n <= |s| then n else |s|
    ensures r <= s
  {
    if n <= |s| then s[..n] else s
  }

  /** `s[n:]` for n >= 0: empty once n reaches the end. */
  function Drop(s: string, n: nat): (r: string)
    ensures |r| == if n <= |s| then |s| - n else 0
    ensures n <= |s| ==> s == s[..n] + r
  {
    if n <= |s| then s[n..] else []
  }

  function Underscores(k: nat): (r: string)
    ensures |r| == k && forall i :: 0 <= i < k ==> r[i] == '_'
  {
    seq(k, _ => '_')
  }

  // ---------------------------------------------------------------- find, replace

  predicate OccursAt(s: string, pat: string, i: nat)
  {
    i + |pat| <= |s| && s[i..i + |pat|] == pat
  }

  function FindFrom(s: string, pat: string, k: nat): (r: int)
    ensures r == -1 ==> forall i :: k <= i ==> !OccursAt(s, pat, i)
    ensures r != -1 ==> k <= r && OccursAt(s, pat, r) && forall i :: k <= i < r ==> !OccursAt(s, pat, i)
    decreases |s| - k
  {
    if k + |pat| > |s| then -1
    else if s[k..k + |pat|] == pat then k
    else FindFrom(s, pat, k + 1)
  }

  /** `s.find(pat)`: the lowest index of `pat` in `s`, or -1. */
  function Find(s: string, pat: string): (r: int)
    ensures r == -1 ==> forall i :: 0 <= i ==> !OccursAt(s, pat, i)
    ensures r != -1 ==> 0 <= r && OccursAt(s, pat, r) && forall i :: 0 <= i < r ==> !OccursAt(s, pat, i)
  {
    FindFrom(s, pat, 0)
  }

  /** Finding a single character: the index of its first occurrence, or -1
      when it does not occur. */
  lemma FindChar(s: string, ch: char)
    ensures var k := Find(s, [ch]);
            && (k == -1 ==> ch !in s)
            && (k != -1 ==> 0 <= k < |s| && s[k] == ch && ch !in s[..k])
  {
    var k := Find(s, [ch]);
    forall i | 0 <= i < |s| && (k == -1 || i < k) ensures s[i] != ch {
      assert !OccursAt(s, [ch], i);
      assert s[i..i + 1] == [s[i]];
    }
    if k != -1 {
      assert s[k..k + 1] == [ch];
    }
  }

  /** A character's first occurrence is where `find` stops. */
  lemma FindCharAt(s: string, ch: char, k: nat)
    requires k < |s| && s[k] == ch && ch !in s[..k]
    ensures Find(s, [ch]) == k
  {
    FindChar(s, ch);
    assert s[..k + 1][k] == ch;
    forall j | 0 <= j < k ensures s[j] != ch {
      assert s[..k][j] == s[j];
    }
  }

  /** `pat in s` */
  predicate Contains(s: string, pat: string)
  {
    Find(s, pat) != -1
  }

  function Interleave(s: string, rep: string): string
  {
    if s == [] then rep else rep + [s[0]] + Interleave(s[1..], rep)
  }

  /** `s.replace(pat, rep)`: every non-overlapping occurrence, left to right. */
  function ReplaceAll(s: string, pat: string, rep: string): string
    decreases |s|
  {
    if pat == [] then Interleave(s, rep)
    else if pat <= s then rep + ReplaceAll(s[|pat|..], pat, rep)
    else if s == [] then []
    else [s[0]] + ReplaceAll(s[1..], pat, rep)
  }

  /** Removing every occurrence of one character leaves none of it. */
  lemma {:induction false} RemoveCharGone(s: string, ch: char)
    ensures ch !in ReplaceAll(s, [ch], "")
    decreases |s|
  {
    if s != [] {
      RemoveCharGone(s[1..], ch);
    }
  }

  /** Replacing a pattern that does not occur changes nothing. */
  lemma {:induction false} ReplaceAbsent(s: string, pat: string, rep: string)
    requires pat != []
    requires forall i :: 0 <= i ==> !OccursAt(s, pat, i)
    ensures ReplaceAll(s, pat, rep) == s
    decreases |s|
  {
    assert !OccursAt(s, pat, 0);
    if s != [] {
      assert !(pat <= s);
      forall i | 0 <= i ensures !OccursAt(s[1..], pat, i) {
        assert !OccursAt(s, pat, i + 1);
        if i + |pat| <= |s| - 1 {
          assert s[1..][i..i + |pat|] == s[i + 1..i + 1 + |pat|];
        }
      }
      ReplaceAbsent(s[1..], pat, rep);
    }
  }

  /** `s.split(sep)` for a separator of several characters. */
  function SplitOn(s: string, sep: string): (r: seq<string>)
    requires sep != []
    ensures |r| >= 1
    decreases |s|
  {
    var i := Find(s, sep);
    if i == -1 then [s] else [s[..i]] + SplitOn(s[i + |sep|..], sep)
  }
}
