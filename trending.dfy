/** The trending view: a copy of the question list sorted by supports, most
    supported first, by JavaScript's stable `Array.prototype.sort`, cut to its
    first ten entries. */
module Trending {
  import opened Questions

  const TRENDING_SIZE: nat := 10

  /** Supports never increase from left to right. */
  predicate NonIncreasing(s: seq<Question>) {
    forall i, j :: 0 <= i < j < |s| ==> s[i].supports >= s[j].supports
  }

  /** The questions of `s` with exactly `v` supports, in the order of `s`. */
  function WithSupports(s: seq<Question>, v: int): (r: seq<Question>)
    ensures |r| <= |s|
  {
    if s == [] then []
    else (if s[0].supports == v then [s[0]] else []) + WithSupports(s[1..], v)
  }

  /** `q` placed before the first entry of `s` that it is not below, so that it
      comes ahead of the entries it ties with. */
  function Insert(q: Question, s: seq<Question>): (r: seq<Question>)
    ensures multiset(r) == multiset(s) + multiset{q}
    ensures |r| == |s| + 1
  {
    if s == [] || q.supports >= s[0].supports then [q] + s
    else
      assert s == [s[0]] + s[1..];
      [s[0]] + Insert(q, s[1..])
  }

  /** The stable sort by the comparator `(a, b) => b.supports - a.supports`. */
  function SortBySupports(qs: seq<Question>): (r: seq<Question>)
    ensures multiset(r) == multiset(qs)
    ensures |r| == |qs|
  {
    if qs == [] then []
    else
      assert qs == [qs[0]] + qs[1..];
      Insert(qs[0], SortBySupports(qs[1..]))
  }

  /** `getTrendingQuestions`: `[...questions].sort(...).slice(0, 10)`. */
  function Top(qs: seq<Question>): (r: seq<Question>)
    ensures |r| <= TRENDING_SIZE && |r| <= |qs|
  {
    var sorted := SortBySupports(qs);
    sorted[..if |sorted| < TRENDING_SIZE then |sorted| else TRENDING_SIZE]
  }

  /** An entry followed by a list ordered by supports, none of whose entries
      is above it, is ordered by supports. */
  lemma ConsNonIncreasing(x: Question, t: seq<Question>)
    requires NonIncreasing(t)
    requires forall y :: y in t ==> y.supports <= x.supports
    ensures NonIncreasing([x] + t)
  {
  }

  lemma {:induction false} InsertNonIncreasing(q: Question, s: seq<Question>)
    requires NonIncreasing(s)
    ensures NonIncreasing(Insert(q, s))
    decreases |s|
  {
    if s == [] || q.supports >= s[0].supports {
      forall y | y in s ensures y.supports <= q.supports {
        if s != [] {
          var k :| 0 <= k < |s| && s[k] == y;
          assert s[0].supports >= s[k].supports;
        }
      }
      ConsNonIncreasing(q, s);
    } else {
      var t := Insert(q, s[1..]);
      InsertNonIncreasing(q, s[1..]);
      forall x | x in t ensures x.supports <= s[0].supports {
        assert x in multiset(t);
        if x != q {
          assert x in multiset(s[1..]);
          var k :| 0 <= k < |s[1..]| && s[1..][k] == x;
          assert s[k + 1] == x;
        }
      }
      ConsNonIncreasing(s[0], t);
    }
  }

  /** The sorted copy is ordered by supports, most supported first. */
  lemma {:induction false} SortNonIncreasing(qs: seq<Question>)
    ensures NonIncreasing(SortBySupports(qs))
    decreases |qs|
  {
    if qs != [] {
      SortNonIncreasing(qs[1..]);
      InsertNonIncreasing(qs[0], SortBySupports(qs[1..]));
    }
  }

  lemma {:induction false} WithSupportsConcat(a: seq<Question>, b: seq<Question>, v: int)
    ensures WithSupports(a + b, v) == WithSupports(a, v) + WithSupports(b, v)
    decreases |a|
  {
    if a != [] {
      assert (a + b)[0] == a[0];
      assert (a + b)[1..] == a[1..] + b;
      WithSupportsConcat(a[1..], b, v);
    } else {
      assert a + b == b;
    }
  }

  lemma {:induction false} InsertStable(q: Question, s: seq<Question>, v: int)
    ensures WithSupports(Insert(q, s), v) == (if q.supports == v then [q] else []) + WithSupports(s, v)
    decreases |s|
  {
    if s == [] || q.supports >= s[0].supports {
      assert ([q] + s)[1..] == s;
    } else {
      InsertStable(q, s[1..], v);
      assert ([s[0]] + Insert(q, s[1..]))[1..] == Insert(q, s[1..]);
    }
  }

  /** Stability: among questions with equal supports, the sorted copy keeps
      the original relative order. */
  lemma {:induction false} SortStable(qs: seq<Question>, v: int)
    ensures WithSupports(SortBySupports(qs), v) == WithSupports(qs, v)
    decreases |qs|
  {
    if qs != [] {
      SortStable(qs[1..], v);
      InsertStable(qs[0], SortBySupports(qs[1..]), v);
    }
  }

  lemma HeadIsLargest(s: seq<Question>, x: Question)
    requires NonIncreasing(s) && x in s
    ensures x.supports <= s[0].supports
  {
  }

  function LeadSupports(s: seq<Question>): int {
    if s == [] then 0 else s[0].supports
  }

  lemma HeadGroup(s: seq<Question>)
    ensures s != [] ==> WithSupports(s, LeadSupports(s)) != []
  {
  }

  /** A list with the same support groups as the empty list is empty. */
  lemma NoGroupsEmpty(a: seq<Question>, b: seq<Question>)
    requires a == []
    requires forall v :: WithSupports(a, v) == WithSupports(b, v)
    ensures b == []
  {
    HeadGroup(b);
    assert WithSupports(b, LeadSupports(b)) == WithSupports(a, LeadSupports(b)) == [];
  }

  lemma {:induction false} WithSupportsHas(s: seq<Question>, v: int)
    requires WithSupports(s, v) != []
    ensures exists x :: x in s && x.supports == v
    decreases |s|
  {
    if s[0].supports != v {
      WithSupportsHas(s[1..], v);
      var x :| x in s[1..] && x.supports == v;
      assert x in s;
    }
  }

  /** A list ordered by supports is determined by what it holds at each
      support count, in order. */
  lemma {:induction false} OrderedByGroupsUnique(a: seq<Question>, b: seq<Question>)
    requires NonIncreasing(a) && NonIncreasing(b)
    requires forall v :: WithSupports(a, v) == WithSupports(b, v)
    ensures a == b
    decreases |a|
  {
    if a == [] {
      NoGroupsEmpty(a, b);
    } else if b == [] {
      NoGroupsEmpty(b, a);
    } else {
      var va, vb := a[0].supports, b[0].supports;
      assert WithSupports(b, vb) != [];
      WithSupportsHas(a, vb);
      var xa :| xa in a && xa.supports == vb;
      HeadIsLargest(a, xa);
      assert WithSupports(a, va) != [];
      WithSupportsHas(b, va);
      var xb :| xb in b && xb.supports == va;
      HeadIsLargest(b, xb);
      assert va == vb;
      assert WithSupports(a, va)[0] == a[0];
      assert WithSupports(b, va)[0] == b[0];
      forall v ensures WithSupports(a[1..], v) == WithSupports(b[1..], v) {
        assert WithSupports(a, v) == WithSupports(b, v);
        var ra, rb := WithSupports(a[1..], v), WithSupports(b[1..], v);
        if va == v {
          assert WithSupports(a, v) == [a[0]] + ra && WithSupports(b, v) == [b[0]] + rb;
          assert ra == ([a[0]] + ra)[1..] && rb == ([b[0]] + rb)[1..];
        } else {
          assert WithSupports(a, v) == ra && WithSupports(b, v) == rb;
        }
      }
      OrderedByGroupsUnique(a[1..], b[1..]);
      assert a == [a[0]] + a[1..] && b == [b[0]] + b[1..];
    }
  }

  /** The sorted copy is THE stable sort: any list that is ordered by supports
      and keeps the original order among ties equals it. */
  lemma SortCharacterized(qs: seq<Question>, t: seq<Question>)
    requires NonIncreasing(t)
    requires forall v :: WithSupports(t, v) == WithSupports(qs, v)
    ensures t == SortBySupports(qs)
  {
    SortNonIncreasing(qs);
    forall v ensures WithSupports(t, v) == WithSupports(SortBySupports(qs), v) {
      SortStable(qs, v);
    }
    OrderedByGroupsUnique(t, SortBySupports(qs));
  }

  /** The trending view holds the first `min(10, |questions|)` entries of the
      sorted copy: that many questions, all taken from the list, most
      supported first. */
  lemma TopShape(qs: seq<Question>)
    ensures |Top(qs)| == if |qs| < TRENDING_SIZE then |qs| else TRENDING_SIZE
    ensures NonIncreasing(Top(qs))
    ensures multiset(Top(qs)) <= multiset(qs)
  {
    var sorted := SortBySupports(qs);
    var k := |Top(qs)|;
    SortNonIncreasing(qs);
    assert sorted == Top(qs) + sorted[k..];
    assert multiset(sorted) == multiset(Top(qs)) + multiset(sorted[k..]);
  }

  /** No question left out of the trending view has more supports than any
      question in it. */
  lemma TopKeepsLeaders(qs: seq<Question>, kept: Question, dropped: Question)
    requires kept in Top(qs)
    requires dropped in multiset(qs) - multiset(Top(qs))
    ensures dropped.supports <= kept.supports
  {
    var sorted := SortBySupports(qs);
    var r := Top(qs);
    var k := |r|;
    SortNonIncreasing(qs);
    assert sorted == r + sorted[k..];
    assert multiset(sorted) == multiset(r) + multiset(sorted[k..]);
    assert dropped in multiset(sorted[k..]);
    var j :| 0 <= j < |sorted[k..]| && sorted[k..][j] == dropped;
    var i :| 0 <= i < k && r[i] == kept;
    assert sorted[i] == kept && sorted[k + j] == dropped;
  }

  /** Ties in the trending view appear in their order in the list: the
      questions of the view with `v` supports are the first ones of the list
      with `v` supports. */
  lemma TopStable(qs: seq<Question>, v: int)
    ensures WithSupports(Top(qs), v) <= WithSupports(qs, v)
  {
    var sorted := SortBySupports(qs);
    var k := |Top(qs)|;
    assert sorted == Top(qs) + sorted[k..];
    WithSupportsConcat(Top(qs), sorted[k..], v);
    SortStable(qs, v);
  }
}
