/**
 * The order the board cache keeps: newest `updated_at` first. The adapter
 * re-derives it by sorting every cached record with a stable sort and the
 * comparer `dateComparator(b.updated_at, a.updated_at)`; here that sort is an
 * insertion sort over ids, which is stable, so records with equal timestamps
 * keep the order they had before the sort.
 */
module DateOrder {
  import opened Boards

  /** The `entities` of the cache: each record under its id. */
  type Entities = map<string, Board>

  /** `dateComparator` compares two timestamps by sign. */
  function DateComparator(a: int, b: int): int
  {
    if a > b then 1 else if a < b then -1 else 0
  }

  /** The adapter's `sortComparer`: negative when `a` goes before `b`. */
  function SortComparer(a: Board, b: Board): int
  {
    DateComparator(b.updated_at, a.updated_at)
  }

  ghost predicate NoDups(s: seq<string>)
  {
    forall i, j :: 0 <= i < j < |s| ==> s[i] != s[j]
  }

  ghost predicate AllIn(s: seq<string>, e: Entities)
  {
    forall x :: x in s ==> x in e
  }

  /** Every id of `s` is cached, and their timestamps never increase along `s`. */
  ghost predicate SortedByDate(s: seq<string>, e: Entities)
  {
    && AllIn(s, e)
    && forall i, j :: 0 <= i < j < |s| ==> e[s[i]].updated_at >= e[s[j]].updated_at
  }

  /** Places `y` after every id of `r` that does not sort after it. */
  function InsertByDate(r: seq<string>, y: string, e: Entities): (q: seq<string>)
    requires AllIn(r, e) && y in e
    ensures multiset(q) == multiset(r) + multiset{y}
    ensures |q| == |r| + 1
    decreases |r|
  {
    if r == [] then [y]
    else if SortComparer(e[r[0]], e[y]) <= 0 then
      assert r == [r[0]] + r[1..];
      [r[0]] + InsertByDate(r[1..], y, e)
    else [y] + r
  }

  /** The ids of `s` sorted newest first, stably. */
  function SortByDate(s: seq<string>, e: Entities): (r: seq<string>)
    requires AllIn(s, e)
    ensures multiset(r) == multiset(s)
    ensures |r| == |s|
    decreases |s|
  {
    if s == [] then []
    else
      var p := s[..|s| - 1];
      assert s == p + [s[|s| - 1]];
      var r := SortByDate(p, e);
      assert forall x :: x in r ==> x in multiset(p);
      InsertByDate(r, s[|s| - 1], e)
  }

  /** The ids of `s` that are in `keep`, in their order in `s`. */
  function Filter(s: seq<string>, keep: set<string>): (r: seq<string>)
    ensures forall x :: x in r <==> x in s && x in keep
    ensures |r| <= |s|
    decreases |s|
  {
    if s == [] then []
    else
      assert forall x :: x in s <==> x == s[0] || x in s[1..];
      (if s[0] in keep then [s[0]] else []) + Filter(s[1..], keep)
  }

  lemma SortedCons(a: string, q: seq<string>, e: Entities)
    requires SortedByDate(q, e) && a in e
    requires forall z :: z in q ==> e[a].updated_at >= e[z].updated_at
    ensures SortedByDate([a] + q, e)
  {
    var s := [a] + q;
    forall i, j | 0 <= i < j < |s| ensures e[s[i]].updated_at >= e[s[j]].updated_at {
      if i > 0 {
        assert s[i] == q[i - 1] && s[j] == q[j - 1];
      } else {
        assert s[j] == q[j - 1];
      }
    }
  }

  lemma SortedTail(s: seq<string>, e: Entities)
    requires SortedByDate(s, e) && s != []
    ensures SortedByDate(s[1..], e)
    ensures forall z :: z in s[1..] ==> e[s[0]].updated_at >= e[z].updated_at
  {
    var t := s[1..];
    forall i, j | 0 <= i < j < |t| ensures e[t[i]].updated_at >= e[t[j]].updated_at {
      assert t[i] == s[i + 1] && t[j] == s[j + 1];
    }
    forall z | z in t ensures e[s[0]].updated_at >= e[z].updated_at {
      var k :| 0 <= k < |t| && t[k] == z;
      assert s[k + 1] == z;
    }
  }

  /** Inserting into a sorted sequence keeps it sorted. */
  lemma {:induction false} InsertByDateSorted(r: seq<string>, y: string, e: Entities)
    requires SortedByDate(r, e) && y in e
    ensures SortedByDate(InsertByDate(r, y, e), e)
    decreases |r|
  {
    var q := InsertByDate(r, y, e);
    if r == [] {
    } else if SortComparer(e[r[0]], e[y]) <= 0 {
      SortedTail(r, e);
      InsertByDateSorted(r[1..], y, e);
      var q' := InsertByDate(r[1..], y, e);
      forall z | z in q' ensures e[r[0]].updated_at >= e[z].updated_at {
        assert z in multiset(q');
      }
      SortedCons(r[0], q', e);
    } else {
      SortedTail(r, e);
      assert r == [r[0]] + r[1..];
      forall z | z in r ensures e[y].updated_at >= e[z].updated_at {
        if z != r[0] {
          assert z in r[1..];
        }
      }
      SortedCons(y, r, e);
    }
  }

  /** The sort yields a sequence ordered newest first. */
  lemma {:induction false} SortByDateSorted(s: seq<string>, e: Entities)
    requires AllIn(s, e)
    ensures SortedByDate(SortByDate(s, e), e)
    decreases |s|
  {
    if s != [] {
      SortByDateSorted(s[..|s| - 1], e);
      InsertByDateSorted(SortByDate(s[..|s| - 1], e), s[|s| - 1], e);
    }
  }

  lemma NoDupsCons(a: string, q: seq<string>)
    requires NoDups(q) && a !in q
    ensures NoDups([a] + q)
  {
    var s := [a] + q;
    forall i, j | 0 <= i < j < |s| ensures s[i] != s[j] {
      assert s[j] == q[j - 1];
      if i > 0 {
        assert s[i] == q[i - 1];
      }
    }
  }

  lemma NoDupsTail(s: seq<string>)
    requires NoDups(s) && s != []
    ensures NoDups(s[1..]) && s[0] !in s[1..]
  {
    var t := s[1..];
    forall i, j | 0 <= i < j < |t| ensures t[i] != t[j] {
      assert t[i] == s[i + 1] && t[j] == s[j + 1];
    }
    forall k | 0 <= k < |t| ensures t[k] != s[0] {
      assert t[k] == s[k + 1];
    }
  }

  lemma NoDupsInit(s: seq<string>)
    requires NoDups(s) && s != []
    ensures NoDups(s[..|s| - 1]) && s[|s| - 1] !in s[..|s| - 1]
  {
    var p := s[..|s| - 1];
    forall i, j | 0 <= i < j < |p| ensures p[i] != p[j] {
      assert p[i] == s[i] && p[j] == s[j];
    }
    forall k | 0 <= k < |p| ensures p[k] != s[|s| - 1] {
      assert p[k] == s[k];
    }
  }

  lemma {:induction false} InsertByDateNoDups(r: seq<string>, y: string, e: Entities)
    requires AllIn(r, e) && y in e
    requires NoDups(r) && y !in r
    ensures NoDups(InsertByDate(r, y, e))
    decreases |r|
  {
    if r != [] && SortComparer(e[r[0]], e[y]) <= 0 {
      var t := r[1..];
      NoDupsTail(r);
      InsertByDateNoDups(t, y, e);
      var q' := InsertByDate(t, y, e);
      assert r[0] !in multiset(q');
      NoDupsCons(r[0], q');
    } else if r != [] {
      NoDupsCons(y, r);
    }
  }

  /** Sorting a sequence without duplicates gives one without duplicates. */
  lemma {:induction false} SortByDateNoDups(s: seq<string>, e: Entities)
    requires AllIn(s, e) && NoDups(s)
    ensures NoDups(SortByDate(s, e))
    decreases |s|
  {
    if s != [] {
      var p, y := s[..|s| - 1], s[|s| - 1];
      assert forall x :: x in p ==> x in s;
      NoDupsInit(s);
      SortByDateNoDups(p, e);
      var r := SortByDate(p, e);
      assert y !in multiset(r);
      assert forall x :: x in r ==> x in multiset(p);
      InsertByDateNoDups(r, y, e);
      assert SortByDate(s, e) == InsertByDate(r, y, e);
    }
  }

  /** The sort reads only the timestamps of the ids it sorts. */
  lemma {:induction false} SortByDateAgree(s: seq<string>, e1: Entities, e2: Entities)
    requires AllIn(s, e1) && AllIn(s, e2)
    requires forall x :: x in s ==> e1[x].updated_at == e2[x].updated_at
    ensures SortByDate(s, e1) == SortByDate(s, e2)
    decreases |s|
  {
    if s != [] {
      var p, y := s[..|s| - 1], s[|s| - 1];
      assert forall x :: x in p ==> x in s;
      SortByDateAgree(p, e1, e2);
      var r := SortByDate(p, e1);
      assert forall x :: x in r ==> x in multiset(p);
      InsertByDateAgree(r, y, e1, e2);
    }
  }

  lemma {:induction false} InsertByDateAgree(r: seq<string>, y: string, e1: Entities, e2: Entities)
    requires AllIn(r, e1) && AllIn(r, e2) && y in e1 && y in e2
    requires forall x :: x in r ==> e1[x].updated_at == e2[x].updated_at
    requires e1[y].updated_at == e2[y].updated_at
    ensures InsertByDate(r, y, e1) == InsertByDate(r, y, e2)
    decreases |r|
  {
    if r != [] {
      assert forall x :: x in r[1..] ==> x in r;
      InsertByDateAgree(r[1..], y, e1, e2);
    }
  }

  lemma {:induction false} FilterNoDups(s: seq<string>, keep: set<string>)
    requires NoDups(s)
    ensures NoDups(Filter(s, keep))
    decreases |s|
  {
    if s != [] {
      var t := s[1..];
      NoDupsTail(s);
      FilterNoDups(t, keep);
      if s[0] in keep {
        NoDupsCons(s[0], Filter(t, keep));
      }
    }
  }

  lemma {:induction false} FilterAppend(p: seq<string>, y: string, keep: set<string>)
    ensures Filter(p + [y], keep) == Filter(p, keep) + (if y in keep then [y] else [])
    decreases |p|
  {
    if p == [] {
      assert [y][1..] == [];
    } else {
      var h := if p[0] in keep then [p[0]] else [];
      var tl := if y in keep then [y] else [];
      assert (p + [y])[0] == p[0] && (p + [y])[1..] == p[1..] + [y];
      assert Filter(p + [y], keep) == h + Filter(p[1..] + [y], keep);
      assert Filter(p, keep) == h + Filter(p[1..], keep);
      FilterAppend(p[1..], y, keep);
      assert h + (Filter(p[1..], keep) + tl) == (h + Filter(p[1..], keep)) + tl;
    }
  }

  lemma FilterCons(a: string, s: seq<string>, keep: set<string>)
    ensures Filter([a] + s, keep) == (if a in keep then [a] else []) + Filter(s, keep)
  {
    assert ([a] + s)[1..] == s;
  }

  /** Dropping ids from a sorted sequence commutes with inserting one. */
  lemma {:induction false} FilterInsertByDate(r: seq<string>, y: string, keep: set<string>, e: Entities)
    requires SortedByDate(r, e) && y in e
    ensures Filter(InsertByDate(r, y, e), keep)
         == if y in keep then InsertByDate(Filter(r, keep), y, e) else Filter(r, keep)
    decreases |r|
  {
    if r == [] {
      FilterCons(y, [], keep);
    } else if SortComparer(e[r[0]], e[y]) <= 0 {
      var a, t := r[0], r[1..];
      SortedTail(r, e);
      FilterInsertByDate(t, y, keep, e);
      assert r == [a] + t;
      assert InsertByDate(r, y, e) == [a] + InsertByDate(t, y, e);
      FilterCons(a, t, keep);
      var ft := Filter(t, keep);
      FilterInsertBehind(a, InsertByDate(t, y, e), ft, y, keep, e);
      if a !in keep {
        assert Filter(r, keep) == ft;
      } else {
        assert Filter(r, keep) == [a] + ft;
      }
    } else {
      FilterInsertAhead(r, y, keep, e);
    }
  }

  /** The step of FilterInsertByDate where `y` goes after the head `a`:
      `it` is the rest with `y` inserted, `ft` the rest filtered. */
  lemma FilterInsertBehind(a: string, it: seq<string>, ft: seq<string>, y: string,
                           keep: set<string>, e: Entities)
    requires AllIn(ft, e) && a in e && y in e
    requires SortComparer(e[a], e[y]) <= 0
    requires Filter(it, keep) == if y in keep then InsertByDate(ft, y, e) else ft
    ensures y !in keep ==> Filter([a] + it, keep) == (if a in keep then [a] else []) + ft
    ensures y in keep && a !in keep ==> Filter([a] + it, keep) == InsertByDate(ft, y, e)
    ensures y in keep && a in keep ==> Filter([a] + it, keep) == InsertByDate([a] + ft, y, e)
  {
    FilterCons(a, it, keep);
    if a !in keep {
      assert [] + Filter(it, keep) == Filter(it, keep);
    } else if y in keep {
      InsertBehindHead(a, ft, y, e);
    }
  }

  lemma InsertBehindHead(a: string, q: seq<string>, y: string, e: Entities)
    requires AllIn(q, e) && a in e && y in e
    requires SortComparer(e[a], e[y]) <= 0
    ensures InsertByDate([a] + q, y, e) == [a] + InsertByDate(q, y, e)
  {
    var aq := [a] + q;
    assert aq[0] == a && aq[1..] == q;
  }

  /** The step of FilterInsertByDate where `y` goes before all of `r`. */
  lemma FilterInsertAhead(r: seq<string>, y: string, keep: set<string>, e: Entities)
    requires SortedByDate(r, e) && y in e && r != []
    requires SortComparer(e[r[0]], e[y]) > 0
    ensures Filter(InsertByDate(r, y, e), keep)
         == if y in keep then InsertByDate(Filter(r, keep), y, e) else Filter(r, keep)
  {
    assert InsertByDate(r, y, e) == [y] + r;
    FilterCons(y, r, keep);
    if y in keep {
      var f := Filter(r, keep);
      if f != [] {
        assert f[0] in r;
        var k :| 0 <= k < |r| && r[k] == f[0];
        assert k == 0 || e[r[0]].updated_at >= e[r[k]].updated_at;
        assert SortComparer(e[f[0]], e[y]) > 0;
      }
    }
  }

  /** Removing ids from the sorted order is sorting what remains. */
  lemma {:induction false} FilterSortByDate(s: seq<string>, keep: set<string>, e: Entities)
    requires AllIn(s, e)
    ensures Filter(SortByDate(s, e), keep) == SortByDate(Filter(s, keep), e)
    decreases |s|
  {
    if s != [] {
      var p, y := s[..|s| - 1], s[|s| - 1];
      assert s == p + [y];
      assert forall x :: x in p ==> x in s;
      SortByDateSorted(p, e);
      assert SortByDate(s, e) == InsertByDate(SortByDate(p, e), y, e);
      FilterSortByDate(p, keep, e);
      FilterInsertByDate(SortByDate(p, e), y, keep, e);
      FilterAppend(p, y, keep);
      var fp := Filter(p, keep);
      if y in keep {
        var fs := fp + [y];
        assert Filter(s, keep) == fs;
        assert fs[..|fs| - 1] == fp && fs[|fs| - 1] == y;
      } else {
        assert Filter(s, keep) == fp;
      }
    }
  }

  lemma {:induction false} NoDupsCard(s: seq<string>)
    requires NoDups(s)
    ensures |set x | x in s| == |s|
    decreases |s|
  {
    if s != [] {
      var t := s[1..];
      NoDupsTail(s);
      NoDupsCard(t);
      assert (set x | x in s) == (set x | x in t) + {s[0]};
    }
  }
}
