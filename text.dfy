/**
 * The few functions of Go's `strings` package that the core relies on,
 * over `string` (= `seq<char>`). A Go string is UTF-8 bytes; every cut set
 * used by the core is a set of whole runes and every separator is one ASCII
 * rune, so working rune by rune gives the same results.
 */
module Text {

  /** `strings.HasPrefix(s, p)` */
  predicate IsPrefix(p: string, s: string) {
    |p| <= |s| && s[..|p|] == p
  }

  /** `strings.Contains(s, pat)`: `pat` starts at some position of `s`. */
  predicate Contains(s: string, pat: string)
    decreases |s|
  {
    IsPrefix(pat, s) || (|s| > 0 && Contains(s[1..], pat))
  }

  /** An occurrence at a known position is enough. */
  lemma {:induction false} ContainsAt(s: string, pat: string, i: nat)
    requires i + |pat| <= |s| && s[i..i + |pat|] == pat
    ensures Contains(s, pat)
  {
    if i > 0 {
      assert s[1..][i - 1..i - 1 + |pat|] == s[i..i + |pat|];
      ContainsAt(s[1..], pat, i - 1);
    } else {
      assert s[..|pat|] == s[0..|pat|];
    }
  }

  /** Conversely, `Contains` always has a witness position. */
  lemma {:induction false} ContainsWitness(s: string, pat: string) returns (i: nat)
    requires Contains(s, pat)
    ensures i + |pat| <= |s| && s[i..i + |pat|] == pat
    decreases |s|
  {
    if IsPrefix(pat, s) {
      i := 0;
    } else {
      var j := ContainsWitness(s[1..], pat);
      assert s[1..][j..j + |pat|] == s[j + 1..j + 1 + |pat|];
      i := j + 1;
    }
  }

  /** A prefix lacking the pattern's first character adds no occurrence. */
  lemma ContainsAfter(p: string, s: string, pat: string)
    requires |pat| > 0 && pat[0] !in p && !Contains(s, pat)
    ensures !Contains(p + s, pat)
  {
    if Contains(p + s, pat) {
      var i := ContainsWitness(p + s, pat);
      if i >= |p| {
        assert s[i - |p|..i - |p| + |pat|] == (p + s)[i..i + |pat|];
        ContainsAt(s, pat, i - |p|);
      }
    }
  }

  /** `strings.TrimLeft(s, cutset)`: drops the longest prefix made of cut characters. */
  function TrimLeft(s: string, cut: set<char>): string
    decreases |s|
  {
    if |s| > 0 && s[0] in cut then TrimLeft(s[1..], cut) else s
  }

  /** What `TrimLeft` keeps is a suffix, what it drops is cut characters, and it stops at a kept one. */
  lemma {:induction false} TrimLeftShape(s: string, cut: set<char>)
    ensures var r := TrimLeft(s, cut);
      && |r| <= |s| && r == s[|s| - |r|..]
      && (forall k :: 0 <= k < |s| - |r| ==> s[k] in cut)
      && (r != [] ==> r[0] !in cut)
    decreases |s|
  {
    if |s| > 0 && s[0] in cut {
      TrimLeftShape(s[1..], cut);
    }
  }

  /** `strings.TrimRight(s, cutset)`: drops the longest suffix made of cut characters. */
  function TrimRight(s: string, cut: set<char>): string
    decreases |s|
  {
    if |s| > 0 && s[|s| - 1] in cut then TrimRight(s[..|s| - 1], cut) else s
  }

  /** What `TrimRight` keeps is a prefix, what it drops is cut characters, and it stops at a kept one. */
  lemma {:induction false} TrimRightShape(s: string, cut: set<char>)
    ensures var r := TrimRight(s, cut);
      && |r| <= |s| && r == s[..|r|]
      && (forall k :: |r| <= k < |s| ==> s[k] in cut)
      && (r != [] ==> r[|r| - 1] !in cut)
    decreases |s|
  {
    if |s| > 0 && s[|s| - 1] in cut {
      TrimRightShape(s[..|s| - 1], cut);
    }
  }

  /** `r` sits in `s` at position `i` with only cut characters around it. */
  predicate Padded(s: string, r: string, i: int, cut: set<char>) {
    && 0 <= i <= |s| - |r|
    && s[i..i + |r|] == r
    && (forall k :: 0 <= k < i ==> s[k] in cut)
    && (forall k :: i + |r| <= k < |s| ==> s[k] in cut)
  }

  /** `strings.Trim(s, cutset)`, and `strings.TrimSpace` with the white-space set. */
  function Trim(s: string, cut: set<char>): string {
    TrimRight(TrimLeft(s, cut), cut)
  }

  /**
   * The trimmed string is a slice of `s`, everything around it is cut
   * characters, and neither of its ends is one.
   */
  lemma TrimShape(s: string, cut: set<char>)
    ensures exists i :: Padded(s, Trim(s, cut), i, cut)
    ensures Trim(s, cut) != [] ==> Trim(s, cut)[0] !in cut && Trim(s, cut)[|Trim(s, cut)| - 1] !in cut
  {
    var l := TrimLeft(s, cut);
    var r := TrimRight(l, cut);
    TrimLeftShape(s, cut);
    TrimRightShape(l, cut);
    var i := |s| - |l|;
    assert s[i..i + |r|] == r;
    assert Padded(s, r, i, cut);
    if r != [] {
      assert r[0] == l[0];
    }
    assert Padded(s, Trim(s, cut), i, cut);
  }

  /** Trimming twice trims nothing more. */
  lemma TrimIdempotent(s: string, cut: set<char>)
    ensures Trim(Trim(s, cut), cut) == Trim(s, cut)
  {
    TrimShape(s, cut);
    var t := Trim(s, cut);
    if t != [] {
      assert TrimLeft(t, cut) == t;
      assert TrimRight(t, cut) == t;
    }
  }

  /** A string with no cut character at either end is left as it is. */
  lemma TrimNoop(s: string, cut: set<char>)
    requires s != [] && s[0] !in cut && s[|s| - 1] !in cut
    ensures Trim(s, cut) == s
  {
    TrimShape(s, cut);
    var r := Trim(s, cut);
    var i :| Padded(s, r, i, cut);
    assert i == 0 && i + |r| == |s|;
  }

  /** Position of the first `c` in `s`. */
  function IndexOf(s: string, c: char): (i: nat)
    requires c in s
    ensures i < |s| && s[i] == c && c !in s[..i]
  {
    if s[0] == c then 0 else 1 + IndexOf(s[1..], c)
  }

  /** `strings.Split(s, string(c))` for a one-character separator. */
  function Split(s: string, c: char): (r: seq<string>)
    ensures |r| >= 1
    ensures forall p :: p in r ==> c !in p
    decreases |s|
  {
    if c !in s then [s]
    else
      var i := IndexOf(s, c);
      [s[..i]] + Split(s[i + 1..], c)
  }

  /** `strings.Join(parts, sep)` */
  function Join(parts: seq<string>, sep: string): string
    decreases |parts|
  {
    if |parts| == 0 then ""
    else if |parts| == 1 then parts[0]
    else parts[0] + sep + Join(parts[1..], sep)
  }

  /** Joining the pieces of a split with the separator gives back the string. */
  lemma {:induction false} JoinSplit(s: string, c: char)
    ensures Join(Split(s, c), [c]) == s
    decreases |s|
  {
    if c in s {
      var i := IndexOf(s, c);
      var rest := Split(s[i + 1..], c);
      JoinSplit(s[i + 1..], c);
      assert Split(s, c) == [s[..i]] + rest;
      assert (([s[..i]] + rest)[1..]) == rest;
      assert s == s[..i] + [c] + s[i + 1..];
    }
  }

  /** The first `c` of `s` is at `n` when `s[n]` is one and none comes before. */
  lemma {:induction false} IndexOfAt(s: string, c: char, n: nat)
    requires n < |s| && s[n] == c && c !in s[..n]
    ensures c in s && IndexOf(s, c) == n
  {
    if n > 0 {
      assert s[0] in s[..n];
      assert s[1..][n - 1] == c;
      assert s[1..][..n - 1] == s[1..n];
      assert forall x :: x in s[1..n] ==> x in s[..n] by {
        forall x | x in s[1..n] ensures x in s[..n] {
          var j :| 1 <= j < n && s[j] == x;
          assert s[..n][j] == x;
        }
      }
      IndexOfAt(s[1..], c, n - 1);
    }
  }

  /** Splitting a join of separator-free pieces gives back the pieces. */
  lemma {:induction false} SplitJoin(parts: seq<string>, c: char)
    requires |parts| >= 1
    requires forall p :: p in parts ==> c !in p
    ensures Split(Join(parts, [c]), c) == parts
    decreases |parts|
  {
    assert parts[0] in parts;
    if |parts| > 1 {
      var head := parts[0];
      var tail := Join(parts[1..], [c]);
      var s := head + [c] + tail;
      assert Join(parts, [c]) == s;
      assert s[..|head|] == head;
      assert s[|head|] == c;
      IndexOfAt(s, c, |head|);
      assert s[|head| + 1..] == tail;
      forall p | p in parts[1..] ensures c !in p {
        assert p in parts;
      }
      SplitJoin(parts[1..], c);
      assert Split(s, c) == [head] + Split(tail, c);
      assert [head] + parts[1..] == parts;
    }
  }
}
