/**
  Splitting a sequence around a one-element separator, with the semantics of Go's
  `strings.Split(s, "/")` and `bytes.Split(data, []byte{'\n'})`: a sequence holding
  n separators splits into exactly n + 1 parts, none of which holds the separator,
  and the parts joined back with the separator give the input again.
  (So `Split("", '/')` is `[""]`, not `[]`, as in Go.)
*/
module Splitting {

  /** The parts glued back together with `sep` between consecutive parts. */
  function Join<T>(parts: seq<seq<T>>, sep: T): seq<T>
  {
    if |parts| == 0 then []
    else if |parts| == 1 then parts[0]
    else parts[0] + [sep] + Join(parts[1..], sep)
  }

  function Split<T(==)>(s: seq<T>, sep: T): (parts: seq<seq<T>>)
    ensures |parts| == multiset(s)[sep] + 1
    decreases |s|
  {
    if s == [] then [[]]
    else
      var rest := Split(s[1..], sep);
      assert s == [s[0]] + s[1..];
      assert multiset(s) == multiset([s[0]]) + multiset(s[1..]);
      if s[0] == sep then [[]] + rest else [[s[0]] + rest[0]] + rest[1..]
  }

  /** Joining the parts with the separator gives the input back. */
  lemma {:induction false} SplitJoin<T>(s: seq<T>, sep: T)
    ensures Join(Split(s, sep), sep) == s
    decreases |s|
  {
    if s != [] {
      var rest := Split(s[1..], sep);
      SplitJoin(s[1..], sep);
      assert [s[0]] + s[1..] == s;
      if s[0] == sep {
        JoinAfterEmpty(rest, sep);
      } else {
        JoinExtendFirst(s[0], rest, sep);
      }
    }
  }

  /** A part in front of at least one other is followed by the separator. */
  lemma {:induction false} JoinCons<T>(p: seq<T>, rest: seq<seq<T>>, sep: T)
    requires |rest| >= 1
    ensures Join([p] + rest, sep) == p + [sep] + Join(rest, sep)
  {
    assert ([p] + rest)[1..] == rest;
  }

  /** An empty first part contributes only the separator. */
  lemma {:induction false} JoinAfterEmpty<T>(rest: seq<seq<T>>, sep: T)
    requires |rest| >= 1
    ensures Join([[]] + rest, sep) == [sep] + Join(rest, sep)
  {
    JoinCons([], rest, sep);
  }

  /** Growing the first part at its front grows the join at its front. */
  lemma {:induction false} JoinExtendFirst<T>(x: T, rest: seq<seq<T>>, sep: T)
    requires |rest| >= 1
    ensures Join([[x] + rest[0]] + rest[1..], sep) == [x] + Join(rest, sep)
  {
    if |rest| == 1 {
      assert [[x] + rest[0]] + rest[1..] == [[x] + rest[0]];
    } else {
      var tail := rest[1..];
      JoinCons([x] + rest[0], tail, sep);
      assert rest == [rest[0]] + tail;
      JoinCons(rest[0], tail, sep);
      assert ([x] + rest[0]) + [sep] + Join(tail, sep) == [x] + (rest[0] + [sep] + Join(tail, sep));
    }
  }

  /** No part holds the separator. */
  lemma {:induction false} SplitSeparatorFree<T>(s: seq<T>, sep: T)
    ensures forall i :: 0 <= i < |Split(s, sep)| ==> sep !in Split(s, sep)[i]
    decreases |s|
  {
    if s != [] {
      var rest := Split(s[1..], sep);
      SplitSeparatorFree(s[1..], sep);
      var parts := Split(s, sep);
      if s[0] == sep {
        assert forall i :: 1 <= i < |parts| ==> parts[i] == rest[i - 1];
      } else {
        assert forall i :: 1 <= i < |parts| ==> parts[i] == rest[i];
      }
    }
  }

  /** The first part of a join is a prefix of it, followed by the separator when more parts follow. */
  lemma {:induction false} JoinHead<T>(parts: seq<seq<T>>, sep: T)
    requires |parts| >= 2
    ensures Join(parts, sep) == parts[0] + [sep] + Join(parts[1..], sep)
    ensures parts[1] <= Join(parts[1..], sep)
  {
  }

  /**
    What callers of `Split` rely on: when the input holds the separator, the first two
    parts are the separator-free runs before the first and between the first and the
    second separator, and nothing else of the input lies between them.
  */
  lemma {:induction false} SplitFirstTwo<T>(s: seq<T>, sep: T)
    requires sep in s
    ensures var parts := Split(s, sep);
      |parts| >= 2 && sep !in parts[0] && sep !in parts[1]
      && parts[0] + [sep] + parts[1] <= s
      && (|parts[0] + [sep] + parts[1]| == |s| || s[|parts[0]| + 1 + |parts[1]|] == sep)
  {
    var parts := Split(s, sep);
    assert multiset(s)[sep] >= 1;
    SplitJoin(s, sep);
    SplitSeparatorFree(s, sep);
    JoinHead(parts, sep);
    var tail := parts[1..];
    if |tail| >= 2 {
      JoinHead(tail, sep);
      assert tail[1..] == parts[2..];
    }
  }

  /** A separator-free prefix followed by the separator contributes exactly one part. */
  lemma {:induction false} SplitAfterSeparator<T>(a: seq<T>, sep: T, b: seq<T>)
    requires sep !in a
    ensures Split(a + [sep] + b, sep) == [a] + Split(b, sep)
    decreases |a|
  {
    var s := a + [sep] + b;
    if a == [] {
      assert s[1..] == b;
    } else {
      assert s[1..] == a[1..] + [sep] + b;
      SplitAfterSeparator(a[1..], sep, b);
      assert [a[0]] + a[1..] == a;
    }
  }

  /** A separator-free run that ends the input or is followed by the separator is the first part. */
  lemma {:induction false} SplitHead<T>(a: seq<T>, sep: T, b: seq<T>)
    requires sep !in a
    requires b == [] || b[0] == sep
    ensures Split(a + b, sep)[0] == a
  {
    if b == [] {
      assert a + b == a;
      assert multiset(a)[sep] == 0;
      SplitJoin(a, sep);
    } else {
      assert a + b == a + [sep] + b[1..];
      SplitAfterSeparator(a, sep, b[1..]);
    }
  }

  /** Two separator-free fields, then nothing or a separator: they are the first two parts. */
  lemma {:induction false} SplitTwoFields<T>(a: seq<T>, b: seq<T>, rest: seq<T>, sep: T)
    requires sep !in a && sep !in b
    requires rest == [] || rest[0] == sep
    ensures var parts := Split(a + [sep] + b + rest, sep);
      |parts| >= 2 && parts[0] == a && parts[1] == b
  {
    assert a + [sep] + b + rest == a + [sep] + (b + rest);
    SplitAfterSeparator(a, sep, b + rest);
    SplitHead(b, sep, rest);
  }
}
