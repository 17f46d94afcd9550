/**
  Ranking of activated rules: `list.sort(key=priority, reverse=True)`. Python's
  sort is stable, also with `reverse=True`, so rules of equal priority keep
  the order in which they were activated.
*/
module Ranking {
  import opened KnowledgeBase

  function Priority(a: ActivatedRule): int { a.rule.priority }

  /** Non-increasing in priority. */
  predicate Sorted(s: seq<ActivatedRule>) {
    forall i, j :: 0 <= i < j < |s| ==> Priority(s[i]) >= Priority(s[j])
  }

  /** The subsequence of `s` with priority `p`, in the order of `s`. */
  function WithPriority(s: seq<ActivatedRule>, p: int): seq<ActivatedRule> {
    if s == [] then []
    else (if Priority(s[0]) == p then [s[0]] else []) + WithPriority(s[1..], p)
  }

  /** Inserts `x` behind every element of priority at least its own. */
  function Insert(s: seq<ActivatedRule>, x: ActivatedRule): (r: seq<ActivatedRule>)
    ensures multiset(r) == multiset(s) + multiset{x}
  {
    if s == [] then [x]
    else if Priority(s[0]) >= Priority(x) then
      assert s == [s[0]] + s[1..];
      [s[0]] + Insert(s[1..], x)
    else [x] + s
  }

  /** Inserting into a sorted list keeps it sorted. */
  lemma {:induction false} InsertSorted(s: seq<ActivatedRule>, x: ActivatedRule)
    requires Sorted(s)
    ensures Sorted(Insert(s, x))
  {
    if s != [] && Priority(s[0]) >= Priority(x) {
      var rest := Insert(s[1..], x);
      InsertSorted(s[1..], x);
      forall j | 0 <= j < |rest| ensures Priority(s[0]) >= Priority(rest[j]) {
        assert rest[j] in multiset(rest);
        if rest[j] != x {
          assert rest[j] in multiset(s[1..]);
          var k :| 0 <= k < |s[1..]| && s[1..][k] == rest[j];
          assert s[1..][k] == s[k + 1];
        }
      }
      var r := [s[0]] + rest;
      forall i, j | 0 <= i < j < |r| ensures Priority(r[i]) >= Priority(r[j]) {
        assert r[j] == rest[j - 1];
        if i > 0 { assert r[i] == rest[i - 1]; }
      }
    }
  }

  /**
    The stable sort by descending priority: each element, in order, is
    inserted into the sorted prefix.
  */
  function SortByPriority(s: seq<ActivatedRule>): (r: seq<ActivatedRule>)
    ensures multiset(r) == multiset(s)
  {
    if s == [] then []
    else
      assert s == s[..|s| - 1] + [s[|s| - 1]];
      Insert(SortByPriority(s[..|s| - 1]), s[|s| - 1])
  }

  /** The sort's result is non-increasing in priority. */
  lemma {:induction false} SortIsSorted(s: seq<ActivatedRule>)
    ensures Sorted(SortByPriority(s))
  {
    if s != [] {
      SortIsSorted(s[..|s| - 1]);
      InsertSorted(SortByPriority(s[..|s| - 1]), s[|s| - 1]);
    }
  }

  lemma {:induction false} WithPriorityAppend(a: seq<ActivatedRule>, b: seq<ActivatedRule>, p: int)
    ensures WithPriority(a + b, p) == WithPriority(a, p) + WithPriority(b, p)
  {
    if a == [] {
      assert a + b == b;
    } else {
      var head := if Priority(a[0]) == p then [a[0]] else [];
      var ab := a + b;
      assert ab[0] == a[0];
      assert ab[1..] == a[1..] + b;
      WithPriorityAppend(a[1..], b, p);
      calc {
        WithPriority(ab, p);
        head + WithPriority(a[1..] + b, p);
        head + (WithPriority(a[1..], p) + WithPriority(b, p));
        (head + WithPriority(a[1..], p)) + WithPriority(b, p);
        WithPriority(a, p) + WithPriority(b, p);
      }
    }
  }

  lemma {:induction false} WithPriorityNone(s: seq<ActivatedRule>, p: int)
    requires forall i :: 0 <= i < |s| ==> Priority(s[i]) != p
    ensures WithPriority(s, p) == []
  {
    if s != [] {
      WithPriorityNone(s[1..], p);
    }
  }

  /** A tail of a sorted list is sorted. */
  lemma SortedTail(s: seq<ActivatedRule>)
    requires Sorted(s) && s != []
    ensures Sorted(s[1..])
  {
  }

  /** No element of a sorted list outranks its head. */
  lemma SortedHeadIsTop(s: seq<ActivatedRule>, x: ActivatedRule)
    requires Sorted(s) && s != [] && Priority(s[0]) < Priority(x)
    ensures forall i :: 0 <= i < |s| ==> Priority(s[i]) != Priority(x)
  {
  }

  /** Inserting in front of a list of lower priorities adds x to its class, at the end. */
  lemma InsertInFrontIsStable(s: seq<ActivatedRule>, x: ActivatedRule, p: int)
    requires forall i :: 0 <= i < |s| ==> Priority(s[i]) != Priority(x)
    ensures WithPriority([x] + s, p) ==
      WithPriority(s, p) + (if Priority(x) == p then [x] else [])
  {
    var mine := if Priority(x) == p then [x] else [];
    assert ([x] + s)[1..] == s;
    assert WithPriority([x] + s, p) == mine + WithPriority(s, p);
    if Priority(x) == p {
      WithPriorityNone(s, p);
      assert mine + [] == [] + mine;
    } else {
      assert [] + WithPriority(s, p) == WithPriority(s, p) + [];
    }
  }

  /** Passing over the head keeps the head in front of its class. */
  lemma BehindHeadIsStable(s: seq<ActivatedRule>, rest: seq<ActivatedRule>, mine: seq<ActivatedRule>, p: int)
    requires s != []
    requires WithPriority(rest, p) == WithPriority(s[1..], p) + mine
    ensures WithPriority([s[0]] + rest, p) == WithPriority(s, p) + mine
  {
    var head := if Priority(s[0]) == p then [s[0]] else [];
    assert ([s[0]] + rest)[1..] == rest;
    calc {
      WithPriority([s[0]] + rest, p);
      head + WithPriority(rest, p);
      head + (WithPriority(s[1..], p) + mine);
      (head + WithPriority(s[1..], p)) + mine;
      WithPriority(s, p) + mine;
    }
  }

  /**
    Inserting keeps every priority class in order and puts `x` at the end of
    its own class.
  */
  lemma {:induction false} InsertIsStable(s: seq<ActivatedRule>, x: ActivatedRule, p: int)
    requires Sorted(s)
    ensures WithPriority(Insert(s, x), p) ==
      WithPriority(s, p) + (if Priority(x) == p then [x] else [])
  {
    if s == [] {
      InsertInFrontIsStable(s, x, p);
      assert Insert(s, x) == [x] + s;
    } else if Priority(s[0]) >= Priority(x) {
      SortedTail(s);
      InsertIsStable(s[1..], x, p);
      BehindHeadIsStable(s, Insert(s[1..], x), if Priority(x) == p then [x] else [], p);
    } else {
      SortedHeadIsTop(s, x);
      InsertInFrontIsStable(s, x, p);
    }
  }

  /** The sort is stable: every priority class keeps its original order. */
  lemma InsertIntoSortIsStable(init: seq<ActivatedRule>, x: ActivatedRule, p: int)
    ensures WithPriority(Insert(SortByPriority(init), x), p) ==
      WithPriority(SortByPriority(init), p) + (if Priority(x) == p then [x] else [])
  {
    SortIsSorted(init);
    InsertIsStable(SortByPriority(init), x, p);
  }

  /** Appending one element adds it to the end of its class. */
  lemma AppendOneIsStable(init: seq<ActivatedRule>, last: ActivatedRule, p: int)
    ensures WithPriority(init + [last], p) ==
      WithPriority(init, p) + (if Priority(last) == p then [last] else [])
  {
    WithPriorityAppend(init, [last], p);
    assert [last][1..] == [];
    assert WithPriority([last], p) == (if Priority(last) == p then [last] else []) + [];
  }

  lemma {:induction false} SortIsStable(s: seq<ActivatedRule>, p: int)
    ensures WithPriority(SortByPriority(s), p) == WithPriority(s, p)
  {
    if s != [] {
      var init, last := s[..|s| - 1], s[|s| - 1];
      var mine := if Priority(last) == p then [last] else [];
      var sorted := SortByPriority(init);
      assert s == init + [last];
      assert SortByPriority(s) == Insert(sorted, last);
      calc {
        WithPriority(Insert(sorted, last), p);
        { InsertIntoSortIsStable(init, last, p); }
        WithPriority(sorted, p) + mine;
        { SortIsStable(init, p); }
        WithPriority(init, p) + mine;
        { AppendOneIsStable(init, last, p); }
        WithPriority(init + [last], p);
      }
    }
  }

  /** Every element of a priority class has that priority and comes from the list. */
  lemma {:induction false} WithPriorityMembers(s: seq<ActivatedRule>, p: int, x: ActivatedRule)
    requires x in WithPriority(s, p)
    ensures x in s && Priority(x) == p
  {
    if s != [] && x in WithPriority(s[1..], p) {
      WithPriorityMembers(s[1..], p, x);
      assert x in s[1..];
    }
  }

  /** A class is empty only when no element of the list has its priority. */
  lemma {:induction false} WithPriorityNonEmpty(s: seq<ActivatedRule>, i: nat)
    requires i < |s|
    ensures WithPriority(s, Priority(s[i])) != []
  {
    if i > 0 && Priority(s[0]) != Priority(s[i]) {
      WithPriorityNonEmpty(s[1..], i - 1);
    }
  }

  /** A list whose every priority class is empty is empty. */
  lemma NoClassesMeansEmpty(t: seq<ActivatedRule>, u: seq<ActivatedRule>)
    requires t == []
    requires forall p :: WithPriority(t, p) == WithPriority(u, p)
    ensures u == []
  {
    EmptyOrHeadClass(u);
  }

  lemma EmptyOrHeadClass(u: seq<ActivatedRule>)
    ensures u == [] || WithPriority(u, Priority(u[0])) != []
  {
    if u != [] {
      WithPriorityNonEmpty(u, 0);
    }
  }

  /** Sorted lists with the same classes start with the same element: the first of the top class. */
  lemma SameClassesSameHead(t: seq<ActivatedRule>, u: seq<ActivatedRule>)
    requires Sorted(t) && Sorted(u) && t != [] && u != []
    requires forall p :: WithPriority(t, p) == WithPriority(u, p)
    ensures t[0] == u[0]
  {
    var pt, pu := Priority(t[0]), Priority(u[0]);
    WithPriorityNonEmpty(t, 0);
    WithPriorityNonEmpty(u, 0);
    assert WithPriority(t, pt) == WithPriority(u, pt);
    assert WithPriority(t, pu) == WithPriority(u, pu);
    WithPriorityMembers(u, pt, WithPriority(u, pt)[0]);
    WithPriorityMembers(t, pu, WithPriority(t, pu)[0]);
    assert pt == pu;
    assert WithPriority(t, pt)[0] == t[0];
    assert WithPriority(u, pu)[0] == u[0];
  }

  /** Dropping the same first element keeps the classes equal. */
  lemma SameClassesTails(t: seq<ActivatedRule>, u: seq<ActivatedRule>, p: int)
    requires t != [] && u != [] && t[0] == u[0]
    requires WithPriority(t, p) == WithPriority(u, p)
    ensures WithPriority(t[1..], p) == WithPriority(u[1..], p)
  {
    var wt, wu := WithPriority(t[1..], p), WithPriority(u[1..], p);
    if Priority(t[0]) == p {
      assert WithPriority(t, p) == [t[0]] + wt;
      assert WithPriority(u, p) == [u[0]] + wu;
      assert wt == WithPriority(t, p)[1..];
      assert wu == WithPriority(u, p)[1..];
    } else {
      assert WithPriority(t, p) == [] + wt && [] + wt == wt;
      assert WithPriority(u, p) == [] + wu && [] + wu == wu;
    }
  }

  /**
    Two sorted lists with the same priority classes are equal. So any stable
    sort by descending priority, Python's included, computes SortByPriority.
  */
  lemma {:induction false} SortedWithSameClassesAreEqual(t: seq<ActivatedRule>, u: seq<ActivatedRule>)
    requires Sorted(t) && Sorted(u)
    requires forall p :: WithPriority(t, p) == WithPriority(u, p)
    ensures t == u
    decreases |t|
  {
    if t == [] {
      NoClassesMeansEmpty(t, u);
    } else if u == [] {
      NoClassesMeansEmpty(u, t);
    } else {
      SameClassesSameHead(t, u);
      forall p ensures WithPriority(t[1..], p) == WithPriority(u[1..], p) {
        SameClassesTails(t, u, p);
      }
      assert Sorted(t[1..]) && Sorted(u[1..]);
      SortedWithSameClassesAreEqual(t[1..], u[1..]);
      assert t == [t[0]] + t[1..] && u == [u[0]] + u[1..];
    }
  }

  /** The sort is the only sorted arrangement of its input that keeps every priority class in order. */
  lemma SortIsTheStableSort(s: seq<ActivatedRule>, t: seq<ActivatedRule>)
    requires Sorted(t)
    requires forall p :: WithPriority(t, p) == WithPriority(s, p)
    ensures t == SortByPriority(s)
  {
    SortIsSorted(s);
    forall p ensures WithPriority(t, p) == WithPriority(SortByPriority(s), p) {
      SortIsStable(s, p);
    }
    SortedWithSameClassesAreEqual(t, SortByPriority(s));
  }

  /** A list that is already sorted is left as it is. */
  lemma SortSorted(s: seq<ActivatedRule>)
    requires Sorted(s)
    ensures SortByPriority(s) == s
  {
    SortIsTheStableSort(s, s);
  }
}
