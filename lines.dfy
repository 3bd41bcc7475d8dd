/** The list operations the hosts editor applies to the lines of the file:
    LINQ's Any and All, and List.RemoveAll. */
module Lines {

  /** Enumerable.Any: some element satisfies `p`. */
  function Any<T>(s: seq<T>, p: T -> bool): (b: bool)
    ensures b <==> exists i :: 0 <= i < |s| && p(s[i])
    decreases |s|
  {
    if s == [] then false else p(s[0]) || Any(s[1..], p)
  }

  /** Enumerable.All: every element satisfies `p`. */
  function All<T>(s: seq<T>, p: T -> bool): (b: bool)
    ensures b <==> forall i :: 0 <= i < |s| ==> p(s[i])
    decreases |s|
  {
    if s == [] then true else p(s[0]) && All(s[1..], p)
  }

  /** What List.RemoveAll(drop) leaves of `s`: the elements that do not
      satisfy `drop`, in their original order. */
  function Removed<T>(s: seq<T>, drop: T -> bool): (r: seq<T>)
    ensures |r| <= |s|
    ensures forall i :: 0 <= i < |r| ==> r[i] in s && !drop(r[i])
    ensures forall i :: 0 <= i < |s| && !drop(s[i]) ==> s[i] in r
    decreases |s|
  {
    if s == [] then []
    else
      var init, last := s[..|s| - 1], s[|s| - 1];
      assert s == init + [last];
      Removed(init, drop) + (if drop(last) then [] else [last])
  }

  /** List.RemoveAll on a list held in a sequence variable: one pass that
      keeps every element not matching `drop`. */
  method RemoveAll<T>(lines: seq<T>, drop: T -> bool) returns (kept: seq<T>)
    ensures kept == Removed(lines, drop)
  {
    kept := [];
    var i := 0;
    while i < |lines|
      invariant 0 <= i <= |lines|
      invariant kept == Removed(lines[..i], drop)
    {
      assert lines[..i + 1][..i] == lines[..i];
      if !drop(lines[i]) {
        kept := kept + [lines[i]];
      }
      i := i + 1;
    }
    assert lines[..i] == lines;
  }

  /** `a` is obtained from `b` by deleting elements, keeping the order. */
  ghost predicate IsSubsequence<T>(a: seq<T>, b: seq<T>)
    decreases |b|
  {
    || a == []
    || (&& b != []
        && (|| (a[|a| - 1] == b[|b| - 1] && IsSubsequence(a[..|a| - 1], b[..|b| - 1]))
            || IsSubsequence(a, b[..|b| - 1])))
  }

  /** RemoveAll keeps the surviving elements in their original order. */
  lemma {:induction false} RemovedIsSubsequence<T>(s: seq<T>, drop: T -> bool)
    ensures IsSubsequence(Removed(s, drop), s)
    decreases |s|
  {
    if s != [] {
      var init, last := s[..|s| - 1], s[|s| - 1];
      RemovedIsSubsequence(init, drop);
      var r := Removed(s, drop);
      if !drop(last) {
        assert r == Removed(init, drop) + [last];
        assert r[..|r| - 1] == Removed(init, drop);
      } else {
        assert r == Removed(init, drop);
      }
    }
  }

  /** RemoveAll keeps every copy of an element that does not match and drops
      every copy of one that does. */
  lemma {:induction false} RemovedCount<T>(s: seq<T>, drop: T -> bool, x: T)
    ensures multiset(Removed(s, drop))[x] == if drop(x) then 0 else multiset(s)[x]
    decreases |s|
  {
    if s != [] {
      var init, last := s[..|s| - 1], s[|s| - 1];
      assert s == init + [last];
      RemovedCount(init, drop, x);
    }
  }

  /** RemoveAll changes nothing when no element matches. */
  lemma {:induction false} RemovedNothing<T>(s: seq<T>, drop: T -> bool)
    requires forall i :: 0 <= i < |s| ==> !drop(s[i])
    ensures Removed(s, drop) == s
    decreases |s|
  {
    if s != [] {
      var init := s[..|s| - 1];
      RemovedNothing(init, drop);
      assert s == init + [s[|s| - 1]];
    }
  }

  /** RemoveAll empties a list whose every element matches. */
  lemma {:induction false} RemovedEverything<T>(s: seq<T>, drop: T -> bool)
    requires forall i :: 0 <= i < |s| ==> drop(s[i])
    ensures Removed(s, drop) == []
    decreases |s|
  {
    if s != [] {
      RemovedEverything(s[..|s| - 1], drop);
    }
  }

  /** RemoveAll by two predicates that agree on every element leaves the
      same list. */
  lemma {:induction false} RemovedAgree<T>(s: seq<T>, p: T -> bool, q: T -> bool)
    requires forall i :: 0 <= i < |s| ==> p(s[i]) == q(s[i])
    ensures Removed(s, p) == Removed(s, q)
    decreases |s|
  {
    if s != [] {
      RemovedAgree(s[..|s| - 1], p, q);
    }
  }

  /** RemoveAll works on the two parts of a concatenation separately. */
  lemma {:induction false} RemovedAppend<T>(a: seq<T>, b: seq<T>, drop: T -> bool)
    ensures Removed(a + b, drop) == Removed(a, drop) + Removed(b, drop)
    decreases |b|
  {
    if b == [] {
      assert a + b == a;
    } else {
      var init := b[..|b| - 1];
      assert (a + b)[..|a + b| - 1] == a + init;
      RemovedAppend(a, init, drop);
    }
  }

  /** Two RemoveAll calls in a row remove what either predicate matches. */
  lemma {:induction false} RemovedTwice<T>(s: seq<T>, p: T -> bool, q: T -> bool, either: T -> bool)
    requires forall x :: either(x) == (p(x) || q(x))
    ensures Removed(Removed(s, p), q) == Removed(s, either)
    decreases |s|
  {
    if s != [] {
      var init, last := s[..|s| - 1], s[|s| - 1];
      RemovedTwice(init, p, q, either);
      var once := Removed(init, p);
      if p(last) {
        assert Removed(s, p) == once;
        assert Removed(s, either) == Removed(init, either);
      } else {
        var r := once + [last];
        assert Removed(s, p) == r;
        assert r[..|r| - 1] == once;
        assert Removed(r, q) == Removed(once, q) + (if q(last) then [] else [last]);
        assert Removed(s, either) == Removed(init, either) + (if either(last) then [] else [last]);
      }
    }
  }
}
