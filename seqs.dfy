/** Sequence helpers shared by the engine: membership order, de-duplication and filtering. */
module Seqs {

  /** No element occurs twice in `s`. */
  predicate NoDuplicates<T(==)>(s: seq<T>) {
    forall i, j :: 0 <= i < j < |s| ==> s[i] != s[j]
  }

  /** Index of the first occurrence of `x` in `s`. */
  function FirstIndex<T(==)>(s: seq<T>, x: T): (k: nat)
    requires x in s
    ensures k < |s| && s[k] == x
    ensures forall j :: 0 <= j < k ==> s[j] != x
  {
    if s[0] == x then 0 else 1 + FirstIndex(s[1..], x)
  }

  /** Every element of `r` occurs in `s`, and `r` lists them in the order of their
      first occurrence in `s`. */
  predicate InFirstOccurrenceOrder<T(==)>(r: seq<T>, s: seq<T>) {
    (forall x :: x in r ==> x in s) &&
    forall i, j :: 0 <= i < j < |r| ==> FirstIndex(s, r[i]) < FirstIndex(s, r[j])
  }

  /** The first occurrence of `x` is not moved by extending `s` at the end. */
  lemma FirstIndexPrefix<T>(s: seq<T>, n: nat, x: T)
    requires n <= |s| && x in s[..n]
    ensures FirstIndex(s, x) == FirstIndex(s[..n], x)
  {
    var k1, k2 := FirstIndex(s, x), FirstIndex(s[..n], x);
    assert s[..n][k2] == s[k2];
    assert k1 <= k2;
    assert s[..n][k1] == s[k1];
  }

  /** `[...new Set(s)]`: the distinct elements of `s`, each kept at its first occurrence. */
  function Dedup<T(==,!new)>(s: seq<T>): (r: seq<T>)
    ensures forall x :: x in r <==> x in s
    ensures NoDuplicates(r)
    decreases |s|
  {
    if |s| == 0 then []
    else
      var d := Dedup(s[..|s| - 1]);
      if s[|s| - 1] in d then d else d + [s[|s| - 1]]
  }

  /** The last element is appended exactly when it did not occur before. */
  lemma DedupLast<T(!new)>(s: seq<T>)
    requires |s| > 0
    ensures s[|s| - 1] in Dedup(s[..|s| - 1]) <==> s[|s| - 1] in s[..|s| - 1]
    ensures Dedup(s) == if s[|s| - 1] in Dedup(s[..|s| - 1]) then Dedup(s[..|s| - 1])
      else Dedup(s[..|s| - 1]) + [s[|s| - 1]]
  {
  }

  /** De-duplication keeps the first-occurrence order. */
  lemma {:induction false} DedupOrder<T(!new)>(s: seq<T>)
    ensures InFirstOccurrenceOrder(Dedup(s), s)
    decreases |s|
  {
    if |s| > 0 {
      var n := |s| - 1;
      var p := s[..n];
      var d := Dedup(p);
      assert InFirstOccurrenceOrder(d, p) by { DedupOrder(p); }
      DedupLast(s);
      if s[n] in d {
        assert InFirstOccurrenceOrder(d, s) by { OrderExtends(d, s, n); }
        assert Dedup(s) == d;
      } else {
        assert InFirstOccurrenceOrder(d + [s[n]], s) by { OrderAppend(d, s, n); }
        assert Dedup(s) == d + [s[n]];
      }
    }
  }

  /** `s.filter(x => !ex.has(x))`, written from the end so that it follows a left-to-right pass. */
  function Without<T(==,!new)>(s: seq<T>, ex: set<T>): seq<T>
    decreases |s|
  {
    if |s| == 0 then []
    else Without(s[..|s| - 1], ex) + (if s[|s| - 1] in ex then [] else [s[|s| - 1]])
  }

  /** Filtering keeps exactly the elements outside `ex`. */
  lemma {:induction false} WithoutMembers<T(!new)>(s: seq<T>, ex: set<T>)
    ensures forall x :: x in Without(s, ex) <==> x in s && x !in ex
    decreases |s|
  {
    if |s| > 0 {
      var n := |s| - 1;
      WithoutMembers(s[..n], ex);
      assert s == s[..n] + [s[n]];
    }
  }

  /** Filtering keeps the absence of duplicates and the relative order of what it keeps. */
  lemma {:induction false} WithoutKeepsOrder<T(!new)>(s: seq<T>, ex: set<T>, t: seq<T>)
    requires NoDuplicates(s) && InFirstOccurrenceOrder(s, t)
    ensures NoDuplicates(Without(s, ex)) && InFirstOccurrenceOrder(Without(s, ex), t)
    decreases |s|
  {
    if |s| > 0 {
      var n := |s| - 1;
      var p := s[..n];
      assert forall i :: 0 <= i < n ==> p[i] == s[i];
      assert NoDuplicates(p) && InFirstOccurrenceOrder(p, t);
      WithoutKeepsOrder(p, ex, t);
      var w := Without(p, ex);
      WithoutMembers(p, ex);
      if s[n] !in ex {
        forall y | y in w ensures y != s[n] && FirstIndex(t, y) < FirstIndex(t, s[n]) {
          var k :| 0 <= k < n && p[k] == y;
        }
        AppendInOrder(w, s[n], t);
      }
    }
  }

  /** Filtering out a superset of the elements leaves nothing. */
  lemma {:induction false} WithoutAll<T(!new)>(s: seq<T>, ex: set<T>)
    requires forall x :: x in s ==> x in ex
    ensures Without(s, ex) == []
    decreases |s|
  {
    if |s| > 0 {
      var p := s[..|s| - 1];
      assert forall x :: x in p ==> x in s;
      WithoutAll(p, ex);
    }
  }

  /** Filtering out elements that do not occur changes nothing. */
  lemma {:induction false} WithoutNone<T(!new)>(s: seq<T>, ex: set<T>)
    requires forall k :: 0 <= k < |s| ==> s[k] !in ex
    ensures Without(s, ex) == s
    decreases |s|
  {
    if |s| > 0 {
      var n := |s| - 1;
      var p := s[..n];
      assert forall k :: 0 <= k < n ==> p[k] == s[k];
      WithoutNone(p, ex);
      assert Without(s, ex) == p + [s[n]];
      assert s == p + [s[n]];
    }
  }

  /** An order by first occurrence in a prefix of `s` is an order by first occurrence in `s`. */
  lemma OrderExtends<T(!new)>(r: seq<T>, s: seq<T>, n: nat)
    requires n <= |s| && InFirstOccurrenceOrder(r, s[..n])
    ensures InFirstOccurrenceOrder(r, s)
  {
    forall x | x in r ensures x in s && FirstIndex(s, x) == FirstIndex(s[..n], x) {
      FirstIndexPrefix(s, n, x);
    }
  }

  /** Appending an element that occurs in `t` after everything already listed keeps
      the list free of duplicates and in first-occurrence order. */
  lemma AppendInOrder<T(!new)>(r: seq<T>, x: T, t: seq<T>)
    requires NoDuplicates(r) && InFirstOccurrenceOrder(r, t) && x in t
    requires forall y :: y in r ==> y != x && FirstIndex(t, y) < FirstIndex(t, x)
    ensures NoDuplicates(r + [x]) && InFirstOccurrenceOrder(r + [x], t)
  {
    var q := r + [x];
    assert forall i :: 0 <= i < |r| ==> q[i] == r[i] && r[i] in r;
    assert q[|r|] == x;
  }

  /** Appending the next new element of `s` keeps the order by first occurrence. */
  lemma OrderAppend<T(!new)>(r: seq<T>, s: seq<T>, n: nat)
    requires n < |s| && s[n] !in s[..n]
    requires NoDuplicates(r) && InFirstOccurrenceOrder(r, s[..n])
    ensures NoDuplicates(r + [s[n]]) && InFirstOccurrenceOrder(r + [s[n]], s)
  {
    OrderExtends(r, s, n);
    assert forall j :: 0 <= j < n ==> s[j] == s[..n][j];
    assert FirstIndex(s, s[n]) == n;
    forall y | y in r ensures y != s[n] && FirstIndex(s, y) < n {
      FirstIndexPrefix(s, n, y);
    }
    AppendInOrder(r, s[n], s);
  }

  /** A list without duplicates is its own de-duplication. */
  lemma {:induction false} DedupDistinct<T(!new)>(s: seq<T>)
    requires NoDuplicates(s)
    ensures Dedup(s) == s
    decreases |s|
  {
    if |s| > 0 {
      var n := |s| - 1;
      var p := s[..n];
      assert NoDuplicates(p) by {
        forall i, j | 0 <= i < j < |p| ensures p[i] != p[j] {
          assert p[i] == s[i] && p[j] == s[j];
        }
      }
      DedupDistinct(p);
      forall k | 0 <= k < n ensures p[k] != s[n] {
        assert p[k] == s[k];
      }
      assert s == p + [s[n]];
    }
  }

  /** Filtering distributes over concatenation. */
  lemma {:induction false} WithoutConcat<T(!new)>(a: seq<T>, b: seq<T>, ex: set<T>)
    ensures Without(a + b, ex) == Without(a, ex) + Without(b, ex)
    decreases |b|
  {
    if |b| == 0 {
      assert a + b == a;
    } else {
      var n := |b| - 1;
      assert (a + b)[..|a + b| - 1] == a + b[..n];
      assert (a + b)[|a + b| - 1] == b[n];
      WithoutConcat(a, b[..n], ex);
    }
  }

  /** `s.filter(x => inc.has(x))`: the elements of `s` that occur in `inc`, in order. */
  function Within<T(==,!new)>(s: seq<T>, inc: set<T>): (r: seq<T>)
    ensures forall x :: x in r <==> x in s && x in inc
    decreases |s|
  {
    if |s| == 0 then []
    else Within(s[..|s| - 1], inc) + (if s[|s| - 1] in inc then [s[|s| - 1]] else [])
  }

  /** The two halves of a list without duplicates share no element. */
  lemma DistinctHalves<T>(a: seq<T>, b: seq<T>)
    requires NoDuplicates(a + b)
    ensures forall x :: x in b ==> x !in a
  {
    forall i, k | 0 <= i < |b| && 0 <= k < |a| ensures a[k] != b[i] {
      assert a[k] == (a + b)[k] && b[i] == (a + b)[|a| + i];
    }
  }

  /** A slice inside the left part of a concatenation is a slice of that part. */
  lemma SliceLeft<T>(x: seq<T>, y: seq<T>, i: nat, n: nat)
    requires i + n <= |x|
    ensures (x + y)[i..i + n] == x[i..i + n]
  {
  }

  /** The right part of a concatenation is the slice after the left part. */
  lemma SliceRight<T>(x: seq<T>, y: seq<T>)
    ensures (x + y)[|x|..|x| + |y|] == y
  {
  }

  /** The blocks of `bs` laid end to end. */
  function Flatten<T>(bs: seq<seq<T>>): seq<T>
    decreases |bs|
  {
    if |bs| == 0 then [] else Flatten(bs[..|bs| - 1]) + bs[|bs| - 1]
  }

  lemma {:induction false} FlattenConcat<T>(a: seq<seq<T>>, b: seq<seq<T>>)
    ensures Flatten(a + b) == Flatten(a) + Flatten(b)
    decreases |b|
  {
    if |b| == 0 {
      assert a + b == a;
    } else {
      var b' := b[..|b| - 1];
      assert (a + b)[..|a + b| - 1] == a + b';
      assert (a + b)[|a + b| - 1] == b[|b| - 1];
      FlattenConcat(a, b');
    }
  }

  /** Blocks of `w` elements each flatten to `|bs| * w` elements. */
  lemma {:induction false} FlattenLength<T>(bs: seq<seq<T>>, w: nat)
    requires forall k :: 0 <= k < |bs| ==> |bs[k]| == w
    ensures |Flatten(bs)| == |bs| * w
    decreases |bs|
  {
    if |bs| > 0 {
      var n := |bs| - 1;
      FlattenLength(bs[..n], w);
      assert (n + 1) * w == n * w + w;
    }
  }

  /** With blocks of `w` elements, element `i * w + j` of the flattening is element `j`
      of block `i`. */
  lemma FlattenAt<T>(bs: seq<seq<T>>, w: nat, i: nat, j: nat)
    requires forall k :: 0 <= k < |bs| ==> |bs[k]| == w
    requires i < |bs| && j < w
    ensures |Flatten(bs)| == |bs| * w
    ensures i * w + j < |Flatten(bs)|
    ensures Flatten(bs)[i * w + j] == bs[i][j]
  {
    var before, after := bs[..i], bs[i + 1..];
    assert bs == before + [bs[i]] + after;
    assert [bs[i]][..0] == [];
    FlattenConcat(before, [bs[i]]);
    FlattenConcat(before + [bs[i]], after);
    FlattenLength(before, w);
    FlattenLength(bs, w);
    var head := Flatten(before);
    assert Flatten(bs) == head + bs[i] + Flatten(after);
    assert (head + bs[i] + Flatten(after))[|head| + j] == bs[i][j];
  }

  /** `parts.join(sep)`: the parts in order, with `sep` between each two. */
  function Join<T>(parts: seq<seq<T>>, sep: seq<T>): seq<T>
    decreases |parts|
  {
    if |parts| == 0 then []
    else if |parts| == 1 then parts[0]
    else Join(parts[..|parts| - 1], sep) + sep + parts[|parts| - 1]
  }

  /** Every part occurs in the joined sequence, at a position returned. */
  lemma {:induction false} JoinHolds<T>(parts: seq<seq<T>>, sep: seq<T>, k: nat) returns (i: nat)
    requires k < |parts|
    ensures i + |parts[k]| <= |Join(parts, sep)|
    ensures Join(parts, sep)[i..i + |parts[k]|] == parts[k]
    decreases |parts|
  {
    var a := parts[k];
    if |parts| == 1 {
      i := 0;
    } else {
      var n := |parts| - 1;
      var p := parts[..n];
      var pt := Join(p, sep) + sep;
      assert Join(parts, sep) == pt + parts[n];
      if k == n {
        i := |pt|;
        SliceRight(pt, parts[n]);
      } else {
        assert p[k] == a;
        i := JoinHolds(p, sep, k);
        SliceLeft(Join(p, sep), sep, i, |a|);
        SliceLeft(pt, parts[n], i, |a|);
      }
    }
  }
}
