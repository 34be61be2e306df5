/** Searching, splitting and joining of text, as the JavaScript methods of those names do it. */
module Strings {

  function StartsWith(s: string, t: string): bool {
    |t| <= |s| && s[..|t|] == t
  }

  function EndsWith(s: string, t: string): bool {
    |t| <= |s| && s[|s| - |t|..] == t
  }

  /** t stands in s at position i. */
  predicate At(s: string, t: string, i: int) {
    0 <= i && i + |t| <= |s| && s[i..i + |t|] == t
  }

  lemma AtTail(s: string, t: string)
    requires s != ""
    ensures forall i: int | i >= 1 :: At(s, t, i) <==> At(s[1..], t, i - 1)
  {
    forall i: int | i >= 1 ensures At(s, t, i) <==> At(s[1..], t, i - 1) {
      if i + |t| <= |s| {
        SameSlice(s, i, i + |t|);
      }
    }
  }

  lemma SameSlice(s: string, i: nat, j: nat)
    requires 1 <= i <= j <= |s|
    ensures s[i..j] == s[1..][i - 1..j - 1]
  {
    var rest := s[1..];
    forall k | 0 <= k < j - i ensures s[i..j][k] == rest[i - 1..j - 1][k] {
      assert s[i..j][k] == s[i + k] == rest[i + k - 1];
    }
  }

  /** The first position of t in s, or -1. */
  function IndexOf(s: string, t: string): (r: int)
    ensures r == -1 || At(s, t, r)
    ensures forall i: int | At(s, t, i) :: 0 <= r <= i
  {
    if At(s, t, 0) then 0
    else if s == "" then -1
    else
      AtTail(s, t);
      var r := IndexOf(s[1..], t);
      assert forall i: int | At(s, t, i) :: i >= 1 && At(s[1..], t, i - 1);
      if r == -1 then -1 else r + 1
  }

  function Includes(s: string, t: string): bool {
    IndexOf(s, t) != -1
  }

  lemma OneCharacter(s: string, c: char)
    ensures StartsWith(s, [c]) <==> s != "" && s[0] == c
    ensures EndsWith(s, [c]) <==> s != "" && s[|s| - 1] == c
    ensures Includes(s, [c]) <==> c in s
  {
    if s != "" {
      assert s[..1] == [s[0]] && s[|s| - 1..] == [s[|s| - 1]];
    }
    if c in s {
      var i :| 0 <= i < |s| && s[i] == c;
      assert s[i..i + 1] == [c] && At(s, [c], i);
    }
    if Includes(s, [c]) {
      var i := IndexOf(s, [c]);
      assert s[i..i + 1] == [c] && s[i] == [c][0];
    }
  }

  /** The last position of c in s, or -1. */
  function LastIndexOf(s: string, c: char): (r: int)
    ensures -1 <= r < |s|
    ensures r >= 0 ==> s[r] == c
    ensures forall i | r < i < |s| :: s[i] != c
  {
    if s == "" then -1
    else if s[|s| - 1] == c then |s| - 1
    else LastIndexOf(s[..|s| - 1], c)
  }

  function Split(s: string, c: char): (parts: seq<string>)
    ensures |parts| >= 1
  {
    if s == "" then [""]
    else
      var rest := Split(s[1..], c);
      if s[0] == c then [""] + rest else [[s[0]] + rest[0]] + rest[1..]
  }

  /** Splitting at a text. */
  function SplitOn(s: string, t: string): (parts: seq<string>)
    requires t != ""
    ensures |parts| >= 1
    decreases |s|
  {
    var i := IndexOf(s, t);
    if i == -1 then [s] else [s[..i]] + SplitOn(s[i + |t|..], t)
  }

  function Join(parts: seq<string>, c: char): string {
    if parts == [] then ""
    else if |parts| == 1 then parts[0]
    else parts[0] + [c] + Join(parts[1..], c)
  }

  lemma {:induction false} SplitAlone(p: string, c: char)
    requires c !in p
    ensures Split(p, c) == [p]
  {
    if p != "" {
      SplitAlone(p[1..], c);
      assert [p[0]] + p[1..] == p;
    }
  }

  lemma {:induction false} SplitFirst(p: string, c: char, rest: string)
    requires c !in p
    ensures Split(p + [c] + rest, c) == [p] + Split(rest, c)
  {
    var s := p + [c] + rest;
    if p == "" {
      assert s[1..] == rest;
    } else {
      assert s[1..] == p[1..] + [c] + rest;
      SplitFirst(p[1..], c, rest);
      assert [p[0]] + p[1..] == p;
    }
  }

  /** Parts without the separator come back. */
  lemma {:induction false} SplitJoin(parts: seq<string>, c: char)
    requires parts != [] && forall p | p in parts :: c !in p
    ensures Split(Join(parts, c), c) == parts
  {
    if |parts| == 1 {
      SplitAlone(parts[0], c);
    } else {
      SplitJoin(parts[1..], c);
      SplitFirst(parts[0], c, Join(parts[1..], c));
    }
  }

  lemma {:induction false} JoinSplit(s: string, c: char)
    ensures Join(Split(s, c), c) == s && forall p | p in Split(s, c) :: c !in p
  {
    if s != "" {
      JoinSplit(s[1..], c);
    }
  }

  lemma {:induction false} JoinAppend(parts: seq<string>, more: seq<string>, c: char)
    requires parts != [] && more != []
    ensures Join(parts + more, c) == Join(parts, c) + [c] + Join(more, c)
  {
    if |parts| == 1 {
      assert (parts + more)[1..] == more;
    } else {
      assert (parts + more)[1..] == parts[1..] + more;
      JoinAppend(parts[1..], more, c);
    }
  }
}
