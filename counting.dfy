/** `collections.Counter` as the analysers use it: occurrence counts kept in
    order of first occurrence, and `most_common(n)`, a sort by descending
    count that keeps tied entries in their original order, cut to its
    first `n` entries. */
module Counting {

  /** One `(key, count)` item of a counter. */
  datatype Entry<K> = Entry(key: K, count: nat)

  /** Occurrences of `w` in `xs`. */
  function Occurrences<K(==,!new)>(xs: seq<K>, w: K): nat
  {
    if xs == [] then 0
    else Occurrences(xs[..|xs| - 1], w) + (if xs[|xs| - 1] == w then 1 else 0)
  }

  predicate Distinct<K(==,!new)>(ks: seq<K>) {
    forall i, j :: 0 <= i < j < |ks| ==> ks[i] != ks[j]
  }

  /** The distinct elements of `xs` in order of first occurrence: the key
      order of a counter filled from `xs`. */
  function FirstSeen<K(==,!new)>(xs: seq<K>): (ks: seq<K>)
    ensures forall w :: w in ks <==> w in xs
    ensures Distinct(ks)
  {
    if xs == [] then []
    else
      var front := xs[..|xs| - 1];
      var x := xs[|xs| - 1];
      assert xs == front + [x];
      var ks := FirstSeen(front);
      if x in ks then ks else ks + [x]
  }

  /** `Counter(xs).items()`: every distinct element with its number of
      occurrences, in order of first occurrence. */
  function Tally<K(==,!new)>(xs: seq<K>): (es: seq<Entry<K>>)
    ensures |es| == |FirstSeen(xs)|
    ensures forall k :: 0 <= k < |es| ==>
              es[k] == Entry(FirstSeen(xs)[k], Occurrences(xs, FirstSeen(xs)[k]))
  {
    var ks := FirstSeen(xs);
    seq(|ks|, k requires 0 <= k < |ks| => Entry(ks[k], Occurrences(xs, ks[k])))
  }

  /** An element that does not occur is counted zero times. */
  lemma {:induction false} OccurrencesAbsent<K(!new)>(xs: seq<K>, w: K)
    requires w !in xs
    ensures Occurrences(xs, w) == 0
    decreases |xs|
  {
    if xs != [] {
      assert xs == xs[..|xs| - 1] + [xs[|xs| - 1]];
      OccurrencesAbsent(xs[..|xs| - 1], w);
    }
  }

  /** An element that occurs is counted at least once. */
  lemma {:induction false} OccurrencesPresent<K(!new)>(xs: seq<K>, w: K)
    requires w in xs
    ensures Occurrences(xs, w) >= 1
    decreases |xs|
  {
    if xs[|xs| - 1] != w {
      assert xs == xs[..|xs| - 1] + [xs[|xs| - 1]];
      OccurrencesPresent(xs[..|xs| - 1], w);
    }
  }

  /** An entry of the tally is an element that occurs, with its number of
      occurrences. */
  lemma TallyMember<K(!new)>(xs: seq<K>, e: Entry<K>)
    requires e in Tally(xs)
    ensures e.key in xs && e.count == Occurrences(xs, e.key) && e.count >= 1
  {
    var k :| 0 <= k < |Tally(xs)| && Tally(xs)[k] == e;
    OccurrencesPresent(xs, e.key);
  }

  /** Every element of `xs` has its entry, with its full count, in the tally. */
  lemma TallyHas<K(!new)>(xs: seq<K>, w: K)
    requires w in xs
    ensures Entry(w, Occurrences(xs, w)) in Tally(xs)
  {
    var ks := FirstSeen(xs);
    var k :| 0 <= k < |ks| && ks[k] == w;
    assert Tally(xs)[k] == Entry(w, Occurrences(xs, w));
  }

  /** Index of the first occurrence of `w`. */
  function FirstIndex<K(==)>(xs: seq<K>, w: K): (i: nat)
    requires w in xs
    ensures i < |xs| && xs[i] == w
    ensures forall j :: 0 <= j < i ==> xs[j] != w
  {
    if xs[0] == w then 0 else 1 + FirstIndex(xs[1..], w)
  }

  /** One more element at the end does not move an earlier first occurrence. */
  lemma FirstIndexSnoc<K(!new)>(front: seq<K>, x: K, w: K)
    requires w in front
    ensures FirstIndex(front + [x], w) == FirstIndex(front, w)
  {
    var xs := front + [x];
    var a, b := FirstIndex(front, w), FirstIndex(xs, w);
    assert xs[a] == w;
    assert b <= a;
    assert front[b] == xs[b];
  }

  /** The keys come in order of first occurrence. */
  lemma {:induction false} FirstSeenOrder<K(!new)>(xs: seq<K>, i: nat, j: nat)
    requires i < j < |FirstSeen(xs)|
    ensures FirstIndex(xs, FirstSeen(xs)[i]) < FirstIndex(xs, FirstSeen(xs)[j])
    decreases |xs|
  {
    var front := xs[..|xs| - 1];
    var x := xs[|xs| - 1];
    assert xs == front + [x];
    var ks := FirstSeen(front);
    var a, b := FirstSeen(xs)[i], FirstSeen(xs)[j];
    assert a == ks[i];
    FirstIndexSnoc(front, x, a);
    if j < |ks| {
      assert b == ks[j];
      FirstIndexSnoc(front, x, b);
      FirstSeenOrder(front, i, j);
    } else {
      assert b == x && x !in front;
      assert FirstIndex(xs, b) == |front|;
    }
  }

  /** Entries of the tally in order come from elements in order of their
      first occurrence. */
  lemma TallyBefore<K(!new)>(xs: seq<K>, a: Entry<K>, b: Entry<K>)
    requires Before(Tally(xs), a, b)
    ensures a.key in xs && b.key in xs
    ensures FirstIndex(xs, a.key) < FirstIndex(xs, b.key)
  {
    var i, j :| 0 <= i < j < |Tally(xs)| && Tally(xs)[i] == a && Tally(xs)[j] == b;
    FirstSeenOrder(xs, i, j);
  }

  /** `Counter(xs)`: the counting loop, one element at a time. */
  method CountAll<K(==,!new)>(xs: seq<K>) returns (tally: seq<Entry<K>>)
    ensures tally == Tally(xs)
  {
    var order: seq<K> := [];
    var counts: map<K, nat> := map[];
    var i := 0;
    while i < |xs|
      invariant 0 <= i <= |xs|
      invariant order == FirstSeen(xs[..i])
      invariant forall w :: w in counts <==> w in order
      invariant forall w :: w in counts ==> counts[w] == Occurrences(xs[..i], w)
    {
      var x := xs[i];
      assert xs[..i + 1][..i] == xs[..i] && xs[..i + 1][i] == x;
      if x in counts {
        counts := counts[x := counts[x] + 1];
      } else {
        OccurrencesAbsent(xs[..i], x);
        counts := counts[x := 1];
        order := order + [x];
      }
      i := i + 1;
    }
    assert xs[..i] == xs;
    tally := seq(|order|, k requires 0 <= k < |order| => Entry(order[k], counts[order[k]]));
  }

  /** The counts of a tally add up to the number of elements counted. */
  function SumCounts<K(==,!new)>(es: seq<Entry<K>>): nat
  {
    if es == [] then 0 else es[0].count + SumCounts(es[1..])
  }

  /** Adding the occurrences of every distinct key: the sum before and after
      one more element `x`. */
  function SumOccurrences<K(==,!new)>(ks: seq<K>, xs: seq<K>): nat
  {
    if ks == [] then 0 else Occurrences(xs, ks[0]) + SumOccurrences(ks[1..], xs)
  }

  lemma {:induction false} SumOccurrencesSnoc<K(!new)>(ks: seq<K>, xs: seq<K>, x: K)
    requires Distinct(ks)
    ensures SumOccurrences(ks, xs + [x]) == SumOccurrences(ks, xs) + (if x in ks then 1 else 0)
    decreases |ks|
  {
    if ks != [] {
      assert (xs + [x])[..|xs + [x]| - 1] == xs;
      assert Distinct(ks[1..]) by {
        forall i, j | 0 <= i < j < |ks[1..]| ensures ks[1..][i] != ks[1..][j] {
          assert ks[1..][i] == ks[i + 1] && ks[1..][j] == ks[j + 1];
        }
      }
      SumOccurrencesSnoc(ks[1..], xs, x);
      assert x in ks <==> x == ks[0] || x in ks[1..];
      assert x == ks[0] ==> x !in ks[1..];
    }
  }

  lemma {:induction false} SumOccurrencesAppend<K(!new)>(ks: seq<K>, x: K, xs: seq<K>)
    ensures SumOccurrences(ks + [x], xs) == SumOccurrences(ks, xs) + Occurrences(xs, x)
    decreases |ks|
  {
    if ks == [] {
      assert [] + [x] == [x];
    } else {
      assert (ks + [x])[1..] == ks[1..] + [x];
      SumOccurrencesAppend(ks[1..], x, xs);
    }
  }

  lemma {:induction false} SumTally<K(!new)>(ks: seq<K>, xs: seq<K>)
    ensures SumCounts(seq(|ks|, k requires 0 <= k < |ks| => Entry(ks[k], Occurrences(xs, ks[k]))))
            == SumOccurrences(ks, xs)
    decreases |ks|
  {
    if ks != [] {
      var es := seq(|ks|, k requires 0 <= k < |ks| => Entry(ks[k], Occurrences(xs, ks[k])));
      var rest := seq(|ks[1..]|, k requires 0 <= k < |ks[1..]| => Entry(ks[1..][k], Occurrences(xs, ks[1..][k])));
      assert es[1..] == rest;
      SumTally(ks[1..], xs);
    }
  }

  /** Every element is counted once: the counts add up to the length. */
  lemma {:induction false} TallyTotal<K(!new)>(xs: seq<K>)
    ensures SumCounts(Tally(xs)) == |xs|
    decreases |xs|
  {
    SumTally(FirstSeen(xs), xs);
    TallySum(xs);
  }

  lemma {:induction false} TallySum<K(!new)>(xs: seq<K>)
    ensures SumOccurrences(FirstSeen(xs), xs) == |xs|
    decreases |xs|
  {
    if xs != [] {
      var front := xs[..|xs| - 1];
      var x := xs[|xs| - 1];
      assert xs == front + [x];
      TallySum(front);
      var ks := FirstSeen(front);
      SumOccurrencesSnoc(ks, front, x);
      if x !in ks {
        SumOccurrencesAppend(ks, x, xs);
        OccurrencesAbsent(front, x);
      }
    }
  }

  // ---------------------------------------------------------------------
  // Keeping the repeated keys

  /** `{k: c for k, c in counter.items() if c > 1}`, in the same order. */
  function KeepRepeated<K(==,!new)>(es: seq<Entry<K>>): (r: seq<Entry<K>>)
    ensures |r| <= |es|
  {
    if es == [] then []
    else if es[0].count > 1 then [es[0]] + KeepRepeated(es[1..])
    else KeepRepeated(es[1..])
  }

  /** Exactly the entries counted more than once are kept. */
  lemma {:induction false} KeepRepeatedMembers<K(!new)>(es: seq<Entry<K>>)
    ensures forall e :: e in KeepRepeated(es) <==> e in es && e.count > 1
    decreases |es|
  {
    if es != [] {
      KeepRepeatedMembers(es[1..]);
      assert es == [es[0]] + es[1..];
    }
  }

  /** `a` occurs before `b` in `es`. */
  predicate Before<K(==,!new)>(es: seq<Entry<K>>, a: Entry<K>, b: Entry<K>) {
    exists i, j :: 0 <= i < j < |es| && es[i] == a && es[j] == b
  }

  /** The kept entries are in their original relative order. */
  lemma {:induction false} KeepRepeatedOrder<K(!new)>(es: seq<Entry<K>>, a: Entry<K>, b: Entry<K>)
    requires Before(KeepRepeated(es), a, b)
    ensures Before(es, a, b)
    decreases |es|
  {
    var r := KeepRepeated(es);
    var rest := KeepRepeated(es[1..]);
    var i, j :| 0 <= i < j < |r| && r[i] == a && r[j] == b;
    if es[0].count > 1 {
      assert r == [es[0]] + rest;
      if i == 0 {
        assert b in rest by {
          assert b == rest[j - 1];
        }
        KeepRepeatedMembers(es[1..]);
        BeforeHead(es, b);
      } else {
        assert rest[i - 1] == a && rest[j - 1] == b;
        KeepRepeatedOrder(es[1..], a, b);
        BeforeTail(es, a, b);
      }
    } else {
      assert r == rest;
      KeepRepeatedOrder(es[1..], a, b);
      BeforeTail(es, a, b);
    }
  }

  /** The first entry comes before every later one. */
  lemma BeforeHead<K(!new)>(es: seq<Entry<K>>, b: Entry<K>)
    requires es != [] && b in es[1..]
    ensures Before(es, es[0], b)
  {
    var j :| 0 <= j < |es[1..]| && es[1..][j] == b;
    assert es[j + 1] == b;
  }

  lemma BeforeTail<K(!new)>(es: seq<Entry<K>>, a: Entry<K>, b: Entry<K>)
    requires es != [] && Before(es[1..], a, b)
    ensures Before(es, a, b)
  {
    var i, j :| 0 <= i < j < |es[1..]| && es[1..][i] == a && es[1..][j] == b;
    assert es[i + 1] == a && es[j + 1] == b;
  }

  // ---------------------------------------------------------------------
  // most_common

  /** Inserts `e` in front of the first entry whose count is not larger. */
  function Insert<K(==,!new)>(e: Entry<K>, s: seq<Entry<K>>): (r: seq<Entry<K>>)
    ensures multiset(r) == multiset(s) + multiset{e}
  {
    if s == [] || s[0].count <= e.count then [e] + s
    else
      assert s == [s[0]] + s[1..];
      [s[0]] + Insert(e, s[1..])
  }

  /** `sorted(es, key=count, reverse=True)`: a stable sort by descending count. */
  function SortByCount<K(==,!new)>(es: seq<Entry<K>>): (r: seq<Entry<K>>)
    ensures multiset(r) == multiset(es)
  {
    if es == [] then []
    else
      assert es == [es[0]] + es[1..];
      Insert(es[0], SortByCount(es[1..]))
  }

  predicate SortedDesc<K(==,!new)>(s: seq<Entry<K>>) {
    forall i, j :: 0 <= i < j < |s| ==> s[i].count >= s[j].count
  }

  /** Where `Insert` puts `e`. */
  function InsertPos<K(==,!new)>(e: Entry<K>, s: seq<Entry<K>>): (p: nat)
    ensures p <= |s|
  {
    if s == [] || s[0].count <= e.count then 0 else 1 + InsertPos(e, s[1..])
  }

  /** `Insert` puts `e` at `InsertPos`, after the entries with larger counts. */
  lemma {:induction false} InsertAt<K(!new)>(e: Entry<K>, s: seq<Entry<K>>)
    ensures Insert(e, s) == s[..InsertPos(e, s)] + [e] + s[InsertPos(e, s)..]
    ensures forall k :: 0 <= k < InsertPos(e, s) ==> s[k].count > e.count
    decreases |s|
  {
    if s != [] && s[0].count > e.count {
      InsertAt(e, s[1..]);
      var q := InsertPos(e, s[1..]);
      var p := q + 1;
      assert InsertPos(e, s) == p;
      var a, b := s[1..][..q], s[1..][q..];
      assert Insert(e, s) == [s[0]] + (a + [e] + b);
      ConsSplice(s[0], a, e, b);
      assert s[..p] == [s[0]] + a;
      assert s[p..] == b;
      forall k | 0 <= k < p ensures s[k].count > e.count {
        if k > 0 {
          assert s[k] == s[1..][k - 1];
        }
      }
    } else {
      assert s[..0] == [] && s[0..] == s;
    }
  }

  lemma ConsSplice<K(!new)>(x: Entry<K>, a: seq<Entry<K>>, e: Entry<K>, b: seq<Entry<K>>)
    ensures [x] + (a + [e] + b) == ([x] + a) + [e] + b
  {
  }

  /** The entry at position `k` after an insertion. */
  lemma InsertIndex<K(!new)>(e: Entry<K>, s: seq<Entry<K>>, k: nat)
    requires k <= |s|
    ensures |Insert(e, s)| == |s| + 1
    ensures var p := InsertPos(e, s);
            Insert(e, s)[k] == if k < p then s[k] else if k == p then e else s[k - 1]
  {
    InsertAt(e, s);
    var p := InsertPos(e, s);
    SpliceIndex(s[..p], e, s[p..], k);
  }

  lemma SpliceIndex<K(!new)>(a: seq<Entry<K>>, e: Entry<K>, b: seq<Entry<K>>, k: nat)
    requires k <= |a| + |b|
    ensures (a + [e] + b)[k] == if k < |a| then a[k] else if k == |a| then e else b[k - |a| - 1]
  {
  }

  lemma InsertSorted<K(!new)>(e: Entry<K>, s: seq<Entry<K>>)
    requires SortedDesc(s)
    ensures SortedDesc(Insert(e, s))
  {
    var p := InsertPos(e, s);
    var r := Insert(e, s);
    InsertIndex(e, s, 0);
    InsertPosBound(e, s);
    InsertAt(e, s);
    forall i, j | 0 <= i < j < |r| ensures r[i].count >= r[j].count {
      InsertIndex(e, s, i);
      InsertIndex(e, s, j);
    }
  }

  /** Everything after the insertion point has a count no larger than `e`'s. */
  lemma {:induction false} InsertPosBound<K(!new)>(e: Entry<K>, s: seq<Entry<K>>)
    requires SortedDesc(s)
    ensures forall k :: InsertPos(e, s) <= k < |s| ==> s[k].count <= e.count
    decreases |s|
  {
    if s != [] && s[0].count > e.count {
      assert SortedDesc(s[1..]) by {
        forall i, j | 0 <= i < j < |s[1..]| ensures s[1..][i].count >= s[1..][j].count {
          assert s[1..][i] == s[i + 1] && s[1..][j] == s[j + 1];
        }
      }
      InsertPosBound(e, s[1..]);
      forall k | InsertPos(e, s) <= k < |s| ensures s[k].count <= e.count {
        assert s[k] == s[1..][k - 1];
      }
    }
  }

  /** The counts come out in non-increasing order. */
  lemma {:induction false} SortByCountSorted<K(!new)>(es: seq<Entry<K>>)
    ensures SortedDesc(SortByCount(es))
    decreases |es|
  {
    if es != [] {
      SortByCountSorted(es[1..]);
      InsertSorted(es[0], SortByCount(es[1..]));
    }
  }

  /** Entries of `s` with equal counts appear in `s` in the order they have in `es`. */
  predicate TiesInOrder<K(==,!new)>(s: seq<Entry<K>>, es: seq<Entry<K>>) {
    forall i, j :: 0 <= i < j < |s| && s[i].count == s[j].count ==> Before(es, s[i], s[j])
  }

  /** Stability: two entries with the same count come out in the order they
      went in. */
  lemma {:induction false} SortByCountStable<K(!new)>(es: seq<Entry<K>>)
    ensures TiesInOrder(SortByCount(es), es)
    decreases |es|
  {
    if es != [] {
      SortByCountStable(es[1..]);
      InsertKeepsTies(es[0], SortByCount(es[1..]), es[1..]);
      assert es == [es[0]] + es[1..];
    }
  }

  /** Inserting `e` into a list whose ties follow `rest` gives a list whose
      ties follow `[e] + rest`. */
  lemma InsertKeepsTies<K(!new)>(e: Entry<K>, t: seq<Entry<K>>, rest: seq<Entry<K>>)
    requires TiesInOrder(t, rest) && multiset(t) == multiset(rest)
    ensures TiesInOrder(Insert(e, t), [e] + rest)
  {
    var p := InsertPos(e, t);
    var s := Insert(e, t);
    var es := [e] + rest;
    assert es[1..] == rest;
    InsertIndex(e, t, 0);
    InsertAt(e, t);
    forall i, j | 0 <= i < j < |s| && s[i].count == s[j].count
      ensures Before(es, s[i], s[j])
    {
      InsertIndex(e, t, i);
      InsertIndex(e, t, j);
      if i == p {
        assert s[j] in multiset(t);
        BeforeHead(es, s[j]);
      } else if j == p {
        assert false;
      } else {
        BeforeTail(es, s[i], s[j]);
      }
    }
  }

  function Min(a: nat, b: nat): nat {
    if a <= b then a else b
  }

  /** `Counter.most_common(n)`. */
  function MostCommon<K(==,!new)>(es: seq<Entry<K>>, n: nat): seq<Entry<K>>
  {
    var s := SortByCount(es);
    s[..Min(n, |s|)]
  }

  /** No entry of `es` left out of `r` has a larger count than an entry of `r`. */
  predicate NoLargerLeftOut<K(==,!new)>(r: seq<Entry<K>>, es: seq<Entry<K>>) {
    forall e, k :: e in es && e !in r && 0 <= k < |r| ==> e.count <= r[k].count
  }

  /** Sorting keeps every entry, so it keeps the length. */
  lemma SortByCountLength<K(!new)>(es: seq<Entry<K>>)
    ensures |SortByCount(es)| == |es|
  {
    assert |multiset(SortByCount(es))| == |multiset(es)|;
  }

  /** What `most_common(n)` keeps comes from the counter. */
  lemma MostCommonFromCounter<K(!new)>(es: seq<Entry<K>>, n: nat)
    ensures forall e :: e in MostCommon(es, n) ==> e in es
  {
    var s := SortByCount(es);
    forall e | e in MostCommon(es, n) ensures e in es {
      assert e in s;
      assert e in multiset(s);
    }
  }

  /** What `most_common(n)` leaves out has no larger count than what it keeps. */
  lemma MostCommonNoLarger<K(!new)>(es: seq<Entry<K>>, n: nat)
    ensures NoLargerLeftOut(MostCommon(es, n), es)
  {
    var s := SortByCount(es);
    var r := MostCommon(es, n);
    SortByCountSorted(es);
    assert forall i :: 0 <= i < |r| ==> r[i] == s[i];
    forall e, k | e in es && e !in r && 0 <= k < |r| ensures e.count <= r[k].count {
      assert e in multiset(s);
      var j :| 0 <= j < |s| && s[j] == e;
      assert j >= |r|;
    }
  }

  /** `most_common(n)` holds `n` entries or all of them, all taken from the
      counter, in non-increasing order of count, ties in their original order,
      and no entry left out has a larger count than any entry kept. */
  lemma MostCommonFacts<K(!new)>(es: seq<Entry<K>>, n: nat)
    ensures |MostCommon(es, n)| == Min(n, |es|)
    ensures forall e :: e in MostCommon(es, n) ==> e in es
    ensures SortedDesc(MostCommon(es, n))
    ensures TiesInOrder(MostCommon(es, n), es)
    ensures NoLargerLeftOut(MostCommon(es, n), es)
  {
    var s := SortByCount(es);
    SortByCountSorted(es);
    SortByCountStable(es);
    SortByCountLength(es);
    MostCommonFromCounter(es, n);
    MostCommonNoLarger(es, n);
  }
}
