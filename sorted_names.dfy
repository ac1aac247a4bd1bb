/**
 * The ordering and set semantics of a java.util.TreeSet<String> with its
 * natural ordering, as the registry's three buckets use it.
 *
 * A tree set is represented by the sequence of its elements in iteration
 * order: strictly ascending under String.compareTo, hence duplicate-free.
 */
module SortedNames {

  /**
   * Java's String.compareTo: the difference of the first pair of characters
   * that differ, or the difference of the lengths when one string is a prefix
   * of the other.  Characters are compared by their numeric value.
   */
  function CompareTo(a: string, b: string): int
  {
    CompareFrom(a, b, 0)
  }

  /** compareTo's scan, from index `k` on. */
  function CompareFrom(a: string, b: string, k: nat): int
    requires k <= |a| && k <= |b|
    decreases |a| - k
  {
    if k == |a| || k == |b| then |a| - |b|
    else if a[k] != b[k] then a[k] as int - b[k] as int
    else CompareFrom(a, b, k + 1)
  }

  /** The order a TreeSet<String> iterates in. */
  predicate Less(a: string, b: string)
  {
    CompareTo(a, b) < 0
  }

  lemma {:induction false} CompareFromZero(a: string, b: string, k: nat)
    requires k <= |a| && k <= |b| && a[..k] == b[..k]
    ensures CompareFrom(a, b, k) == 0 <==> a == b
    decreases |a| - k
  {
    if k == |a| || k == |b| {
      if |a| == |b| {
        assert a == a[..k] && b == b[..k];
      } else {
        assert |a| != |b|;
      }
    } else if a[k] != b[k] {
      assert a != b;
    } else {
      assert a[..k + 1] == a[..k] + [a[k]] && b[..k + 1] == b[..k] + [b[k]];
      CompareFromZero(a, b, k + 1);
    }
  }

  /** compareTo is zero exactly on equal strings (consistency with equals). */
  lemma CompareToZero(a: string, b: string)
    ensures CompareTo(a, b) == 0 <==> a == b
  {
    CompareFromZero(a, b, 0);
  }

  lemma {:induction false} CompareFromFlip(a: string, b: string, k: nat)
    requires k <= |a| && k <= |b|
    ensures CompareFrom(b, a, k) == -CompareFrom(a, b, k)
    decreases |a| - k
  {
    if k < |a| && k < |b| && a[k] == b[k] {
      CompareFromFlip(a, b, k + 1);
    }
  }

  /** Swapping the arguments negates the result. */
  lemma CompareToFlip(a: string, b: string)
    ensures CompareTo(b, a) == -CompareTo(a, b)
  {
    CompareFromFlip(a, b, 0);
  }

  lemma LessIrreflexive(a: string)
    ensures !Less(a, a)
  {
    CompareToZero(a, a);
  }

  lemma {:induction false} CompareFromTransitive(a: string, b: string, c: string, k: nat)
    requires k <= |a| && k <= |b| && k <= |c|
    requires CompareFrom(a, b, k) < 0 && CompareFrom(b, c, k) < 0
    ensures CompareFrom(a, c, k) < 0
    decreases |a| - k
  {
    if k < |a| && k < |b| && k < |c| && a[k] == b[k] == c[k] {
      CompareFromTransitive(a, b, c, k + 1);
    }
  }

  lemma LessTransitive(a: string, b: string, c: string)
    requires Less(a, b) && Less(b, c)
    ensures Less(a, c)
  {
    CompareFromTransitive(a, b, c, 0);
  }

  /** Equal characters from `j` up to `k` are skipped over by the scan. */
  lemma {:induction false} CompareFromSkip(a: string, b: string, j: nat, k: nat)
    requires j <= k <= |a| && k <= |b|
    requires forall i :: j <= i < k ==> a[i] == b[i]
    ensures CompareFrom(a, b, j) == CompareFrom(a, b, k)
    decreases k - j
  {
    if j < k {
      CompareFromSkip(a, b, j + 1, k);
    }
  }

  /** The first `k` characters agree and the next one decides. */
  lemma LessAt(a: string, b: string, k: nat)
    requires k < |a| && k < |b|
    requires forall i :: 0 <= i < k ==> a[i] == b[i]
    requires a[k] < b[k]
    ensures Less(a, b)
  {
    CompareFromSkip(a, b, 0, k);
  }

  /** Any two strings are equal or ordered one way or the other. */
  lemma LessTrichotomy(a: string, b: string)
    ensures a == b || Less(a, b) || Less(b, a)
    ensures !(Less(a, b) && Less(b, a))
  {
    CompareToZero(a, b);
    CompareToFlip(a, b);
  }

  /** The elements of a tree set in iteration order. */
  ghost predicate StrictlySorted(s: seq<string>)
  {
    forall i, j :: 0 <= i < j < |s| ==> Less(s[i], s[j])
  }

  ghost function Elements(s: seq<string>): set<string>
  {
    set x | x in s
  }

  /** An ascending chain of neighbours is strictly sorted throughout. */
  lemma {:induction false} SortedFromNeighbours(s: seq<string>)
    requires forall i :: 0 < i < |s| ==> Less(s[i - 1], s[i])
    ensures StrictlySorted(s)
  {
    if |s| > 1 {
      var t := s[1..];
      assert forall i :: 0 < i < |t| ==> Less(t[i - 1], t[i]) by {
        forall i | 0 < i < |t| ensures Less(t[i - 1], t[i]) {
          assert t[i - 1] == s[i] && t[i] == s[i + 1];
        }
      }
      SortedFromNeighbours(t);
      forall i, j | 0 <= i < j < |s| ensures Less(s[i], s[j]) {
        if i == 0 && j > 1 {
          assert Less(t[0], t[j - 1]);
          LessTransitive(s[0], s[1], s[j]);
        } else if i > 0 {
          assert Less(t[i - 1], t[j - 1]);
        }
      }
    }
  }

  /** Appending a name above the greatest one keeps the order strict. */
  lemma SnocSorted(s: seq<string>, x: string)
    requires StrictlySorted(s)
    requires s != [] ==> Less(s[|s| - 1], x)
    ensures StrictlySorted(s + [x])
  {
    var t := s + [x];
    forall i, j | 0 <= i < j < |t| ensures Less(t[i], t[j]) {
      if j == |s| && i < |s| - 1 {
        LessTransitive(s[i], s[|s| - 1], x);
      }
    }
  }

  /** A strictly sorted sequence holds no duplicates. */
  lemma {:induction false} SortedCardinality(s: seq<string>)
    requires StrictlySorted(s)
    ensures |Elements(s)| == |s|
  {
    if s != [] {
      SortedCardinality(s[1..]);
      assert Elements(s) == {s[0]} + Elements(s[1..]) by {
        assert s == [s[0]] + s[1..];
      }
      if s[0] in Elements(s[1..]) {
        var k :| 0 <= k < |s[1..]| && s[1..][k] == s[0];
        assert Less(s[0], s[k + 1]);
        LessIrreflexive(s[0]);
      }
    }
  }

  /** The first element of a non-empty tree set is its least element. */
  lemma HeadIsLeast(s: seq<string>, x: string)
    requires StrictlySorted(s) && x in s
    ensures x == s[0] || Less(s[0], x)
  {
  }

  /**
   * A tree set's iteration order is determined by its elements: two strictly
   * sorted sequences with the same elements are equal.
   */
  lemma {:induction false} SortedUnique(a: seq<string>, b: seq<string>)
    requires StrictlySorted(a) && StrictlySorted(b)
    requires Elements(a) == Elements(b)
    ensures a == b
  {
    assert a != [] ==> a[0] in Elements(b);
    assert b != [] ==> b[0] in Elements(a);
    if a != [] && b != [] {
      assert a[0] in Elements(b) && b[0] in Elements(a);
      HeadIsLeast(a, b[0]);
      HeadIsLeast(b, a[0]);
      LessTrichotomy(a[0], b[0]);
      assert a[0] == b[0];
      forall x ensures x in Elements(a[1..]) <==> x in Elements(b[1..]) {
        if x in a[1..] {
          var k :| 1 <= k < |a| && a[k] == x;
          assert Less(a[0], x);
          LessIrreflexive(x);
          assert x in Elements(b);
        }
        if x in b[1..] {
          var k :| 1 <= k < |b| && b[k] == x;
          assert Less(b[0], x);
          LessIrreflexive(x);
          assert x in Elements(a);
        }
      }
      SortedUnique(a[1..], b[1..]);
      assert a == [a[0]] + a[1..] && b == [b[0]] + b[1..];
    }
  }

  /** A name below the least element can be put in front. */
  lemma PrependSmaller(x: string, s: seq<string>)
    requires StrictlySorted(s) && s != [] && Less(x, s[0])
    ensures StrictlySorted([x] + s)
  {
    var r := [x] + s;
    forall i, j | 0 <= i < j < |r| ensures Less(r[i], r[j]) {
      if i == 0 && j > 1 {
        LessTransitive(x, s[0], s[j - 1]);
      }
    }
  }

  /** The head kept in front of a tail that gained `x`, when the head is below `x`. */
  lemma KeepHead(s: seq<string>, x: string, t: seq<string>)
    requires StrictlySorted(s) && s != [] && Less(s[0], x)
    requires StrictlySorted(t) && Elements(t) == Elements(s[1..]) + {x}
    ensures StrictlySorted([s[0]] + t)
    ensures Elements([s[0]] + t) == Elements(s) + {x}
  {
    assert s == [s[0]] + s[1..];
    assert Elements(s) == {s[0]} + Elements(s[1..]);
    assert Elements([s[0]] + t) == {s[0]} + Elements(t);
    var r := [s[0]] + t;
    forall i, j | 0 <= i < j < |r| ensures Less(r[i], r[j]) {
      if i == 0 {
        assert r[j] == t[j - 1] && t[j - 1] in Elements(t);
      } else {
        assert r[i] == t[i - 1] && r[j] == t[j - 1];
      }
    }
  }

  /**
   * TreeSet.add: the name is placed at its position in the order, and the
   * set is left as it was when the name is already present.
   */
  function Insert(s: seq<string>, x: string): (r: seq<string>)
    requires StrictlySorted(s)
    ensures StrictlySorted(r)
    ensures Elements(r) == Elements(s) + {x}
  {
    if |s| == 0 then [x]
    else
      var c := CompareTo(x, s[0]);
      if c < 0 then
        PrependSmaller(x, s);
        [x] + s
      else if c == 0 then
        CompareToZero(x, s[0]);
        s
      else
        var t := Insert(s[1..], x);
        CompareToFlip(x, s[0]);
        KeepHead(s, x, t);
        [s[0]] + t
  }

  /** Adding a name that is already present changes nothing. */
  lemma InsertPresent(s: seq<string>, x: string)
    requires StrictlySorted(s) && x in s
    ensures Insert(s, x) == s
  {
    SortedUnique(Insert(s, x), s);
  }

  /** Adding the same name twice leaves the state adding it once leaves. */
  lemma InsertIdempotent(s: seq<string>, x: string)
    requires StrictlySorted(s)
    ensures Insert(Insert(s, x), x) == Insert(s, x)
  {
    assert x in Elements(Insert(s, x));
    InsertPresent(Insert(s, x), x);
  }

  /** Successive TreeSet.add calls, in the order of `xs`. */
  function InsertAll(s: seq<string>, xs: seq<string>): (r: seq<string>)
    requires StrictlySorted(s)
    ensures StrictlySorted(r)
    ensures Elements(r) == Elements(s) + Elements(xs)
  {
    if xs == [] then s
    else
      var last := xs[|xs| - 1];
      assert Elements(xs) == Elements(xs[..|xs| - 1]) + {last} by {
        assert xs == xs[..|xs| - 1] + [last];
      }
      Insert(InsertAll(s, xs[..|xs| - 1]), last)
  }

  /**
   * The outcome of a series of adds depends only on which names were added:
   * neither their order nor their repetition matters.
   */
  lemma InsertAllOrderIndependent(s: seq<string>, xs: seq<string>, ys: seq<string>)
    requires StrictlySorted(s)
    requires Elements(xs) == Elements(ys)
    ensures InsertAll(s, xs) == InsertAll(s, ys)
  {
    SortedUnique(InsertAll(s, xs), InsertAll(s, ys));
  }
}
