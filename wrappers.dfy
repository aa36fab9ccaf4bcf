/** Small helpers shared by the whole model: an Option type, the index form of
    Rust's Iterator::find, and str::split on a single character. */
module Wrappers {

  datatype Option<+T> = None | Some(value: T)

  /** Position of the first element of `s` satisfying `p`, or |s| when there is none. */
  function FirstIndex<T>(s: seq<T>, p: T -> bool): (i: nat)
    ensures i <= |s|
    ensures forall j :: 0 <= j < i ==> !p(s[j])
    ensures i < |s| ==> p(s[i])
  {
    if s == [] then 0 else if p(s[0]) then 0 else 1 + FirstIndex(s[1..], p)
  }

  /** Rust's Iterator::find: the first element satisfying `p`. */
  function Find<T>(s: seq<T>, p: T -> bool): Option<T>
  {
    var i := FirstIndex(s, p);
    if i < |s| then Some(s[i]) else None
  }

  /** Any index that satisfies `p` and has no earlier match is the one FirstIndex finds. */
  lemma FirstIndexUnique<T>(s: seq<T>, p: T -> bool, i: nat)
    requires i < |s| && p(s[i])
    requires forall j :: 0 <= j < i ==> !p(s[j])
    ensures FirstIndex(s, p) == i
  {
  }

  /** Searching a concatenation finds the first match of the left part, if it has one. */
  lemma FindAppend<T>(a: seq<T>, b: seq<T>, p: T -> bool)
    ensures Find(a + b, p) == if Find(a, p).Some? then Find(a, p) else Find(b, p)
  {
    var i := FirstIndex(a, p);
    if i < |a| {
      FirstIndexUnique(a + b, p, i);
    } else {
      var k := FirstIndex(b, p);
      if k < |b| {
        FirstIndexUnique(a + b, p, |a| + k);
      } else {
        assert forall j :: 0 <= j < |a + b| ==> !p((a + b)[j]) by {
          forall j | 0 <= j < |a + b| ensures !p((a + b)[j]) {
            if j >= |a| { assert (a + b)[j] == b[j - |a|]; }
          }
        }
      }
    }
  }

  /** Rust's `str::split(sep)`: the pieces between occurrences of `sep`; always at least one. */
  function Split(s: string, sep: char): (parts: seq<string>)
    ensures |parts| >= 1
    decreases |s|
  {
    var i := FirstIndex(s, c => c == sep);
    if i == |s| then [s] else [s[..i]] + Split(s[i + 1..], sep)
  }

  /** The inverse of Split: the pieces glued back together with `sep`. */
  function Join(parts: seq<string>, sep: char): string
    requires |parts| >= 1
  {
    if |parts| == 1 then parts[0] else parts[0] + [sep] + Join(parts[1..], sep)
  }

  /** Splitting and joining again gives back the original text. */
  lemma {:induction false} JoinSplit(s: string, sep: char)
    ensures Join(Split(s, sep), sep) == s
    decreases |s|
  {
    var i := FirstIndex(s, c => c == sep);
    if i < |s| {
      var pre, post := s[..i], s[i + 1..];
      assert Split(s, sep) == [pre] + Split(post, sep);
      JoinSplit(post, sep);
      assert s == pre + [sep] + post;
    }
  }

  /** No piece contains the separator. */
  lemma {:induction false} SplitPiecesHaveNoSeparator(s: string, sep: char)
    ensures forall k :: 0 <= k < |Split(s, sep)| ==> sep !in Split(s, sep)[k]
    decreases |s|
  {
    var i := FirstIndex(s, c => c == sep);
    if i < |s| {
      SplitPiecesHaveNoSeparator(s[i + 1..], sep);
      forall j | 0 <= j < i ensures s[..i][j] != sep { }
    } else {
      forall j | 0 <= j < |s| ensures s[j] != sep { }
    }
  }

  /** There is one more piece than there are separators. */
  lemma {:induction false} SplitCount(s: string, sep: char)
    ensures |Split(s, sep)| == multiset(s)[sep] + 1
    decreases |s|
  {
    var i := FirstIndex(s, c => c == sep);
    if i < |s| {
      assert Split(s, sep) == [s[..i]] + Split(s[i + 1..], sep);
      SplitCount(s[i + 1..], sep);
      CountFromFirst(s, sep, i);
    } else {
      CountWhenAbsent(s, sep);
    }
  }

  /** Cutting text at the first separator removes exactly one of them. */
  lemma CountFromFirst(s: string, sep: char, i: nat)
    requires i < |s| && s[i] == sep
    requires forall j :: 0 <= j < i ==> s[j] != sep
    ensures multiset(s)[sep] == multiset(s[i + 1..])[sep] + 1
  {
    var pre, post := s[..i], s[i + 1..];
    assert s == pre + [sep] + post;
    assert sep !in pre by {
      forall j | 0 <= j < i ensures pre[j] != sep { }
    }
    assert multiset(s) == multiset(pre) + multiset{sep} + multiset(post);
  }

  lemma CountWhenAbsent(s: string, sep: char)
    requires forall j :: 0 <= j < |s| ==> s[j] != sep
    ensures multiset(s)[sep] == 0
  {
    assert sep !in s by {
      forall j | 0 <= j < |s| ensures s[j] != sep { }
    }
  }

  /** Splitting text that was joined from separator-free pieces gives those pieces back. */
  lemma {:induction false} SplitJoin(parts: seq<string>, sep: char)
    requires |parts| >= 1
    requires forall k :: 0 <= k < |parts| ==> sep !in parts[k]
    ensures Split(Join(parts, sep), sep) == parts
    decreases |parts|
  {
    var s := Join(parts, sep);
    var i := FirstIndex(s, c => c == sep);
    if |parts| > 1 {
      var rest := Join(parts[1..], sep);
      assert s == parts[0] + [sep] + rest;
      FirstIndexUnique(s, c => c == sep, |parts[0]|);
      assert s[..i] == parts[0];
      assert s[i + 1..] == rest;
      SplitJoin(parts[1..], sep);
    }
  }
}
