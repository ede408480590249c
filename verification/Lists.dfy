/** Filtering, searching and key-uniqueness of lists. */
module Lists {
  import opened Wrappers

  function Filter<T(!new)>(s: seq<T>, keep: T -> bool): (r: seq<T>)
    ensures |r| <= |s|
    ensures forall x :: x in r <==> x in s && keep(x)
  {
    if s == [] then []
    else
      var n := |s| - 1;
      assert s == s[..n] + [s[n]];
      if keep(s[n]) then Filter(s[..n], keep) + [s[n]] else Filter(s[..n], keep)
  }

  function Find<T(!new)>(s: seq<T>, wanted: T -> bool): (r: Option<T>)
    ensures r.Some? ==> r.value in s && wanted(r.value)
    ensures r.None? ==> forall x | x in s :: !wanted(x)
  {
    if s == [] then None
    else if wanted(s[0]) then Some(s[0])
    else
      assert s == [s[0]] + s[1..];
      Find(s[1..], wanted)
  }

  // No two entries have the same key.
  predicate Distinct<T, K(==)>(s: seq<T>, key: T -> K) {
    forall i, j | 0 <= i < j < |s| :: key(s[i]) != key(s[j])
  }

  lemma {:induction false} FilterDistinct<T(!new), K>(s: seq<T>, key: T -> K, keep: T -> bool)
    requires Distinct(s, key)
    ensures Distinct(Filter(s, keep), key)
  {
    if s != [] {
      var n := |s| - 1;
      FilterDistinct(s[..n], key, keep);
      var r := Filter(s[..n], keep);
      forall x | x in r ensures key(x) != key(s[n]) {
        var i :| 0 <= i < n && s[..n][i] == x;
      }
      assert forall i | 0 <= i < |r| :: r[i] in r;
    }
  }

  lemma AppendDistinct<T, K>(a: seq<T>, b: seq<T>, key: T -> K)
    requires Distinct(a, key) && Distinct(b, key)
    requires forall x, y | x in a && y in b :: key(x) != key(y)
    ensures Distinct(a + b, key)
  {}

  lemma SameKeySame<T, K>(s: seq<T>, key: T -> K, x: T, y: T)
    requires Distinct(s, key) && x in s && y in s && key(x) == key(y)
    ensures x == y
  {
    var i :| 0 <= i < |s| && s[i] == x;
    var j :| 0 <= j < |s| && s[j] == y;
  }

  lemma {:induction false} FilterSplits<T(!new)>(s: seq<T>, keep: T -> bool, drop: T -> bool)
    requires forall x | x in s :: keep(x) <==> !drop(x)
    ensures |Filter(s, keep)| + |Filter(s, drop)| == |s|
  {
    if s != [] {
      var n := |s| - 1;
      assert s == s[..n] + [s[n]];
      FilterSplits(s[..n], keep, drop);
    }
  }

  lemma {:induction false} FilterDrops<T(!new)>(s: seq<T>, keep: T -> bool, x: T)
    requires x in s && !keep(x)
    ensures |Filter(s, keep)| < |s|
  {
    var n := |s| - 1;
    assert s == s[..n] + [s[n]];
    if s[n] != x {
      FilterDrops(s[..n], keep, x);
    }
  }

  lemma {:induction false} FilterAll<T(!new)>(s: seq<T>, keep: T -> bool)
    requires forall x | x in s :: keep(x)
    ensures Filter(s, keep) == s
  {
    if s != [] {
      var n := |s| - 1;
      assert s == s[..n] + [s[n]];
      FilterAll(s[..n], keep);
    }
  }

  lemma {:induction false} FilterCommutes<T(!new)>(s: seq<T>, f: T -> bool, g: T -> bool)
    ensures Filter(Filter(s, f), g) == Filter(Filter(s, g), f)
  {
    if s != [] {
      var n := |s| - 1;
      FilterCommutes(s[..n], f, g);
      FilterLast(Filter(s[..n], f), s[n], g);
      FilterLast(Filter(s[..n], g), s[n], f);
    }
  }

  lemma FilterLast<T(!new)>(s: seq<T>, x: T, keep: T -> bool)
    ensures Filter(s + [x], keep) == Filter(s, keep) + (if keep(x) then [x] else [])
  {
    assert (s + [x])[..|s|] == s;
  }

  lemma {:induction false} FilterAppend<T(!new)>(a: seq<T>, b: seq<T>, keep: T -> bool)
    ensures Filter(a + b, keep) == Filter(a, keep) + Filter(b, keep)
  {
    assert Filter<T>([], keep) == [];
    hide Filter;
    if b == [] {
      assert a + b == a;
    } else {
      var n := |b| - 1;
      FilterAppend(a, b[..n], keep);
      FilterAppendLast(a, b[..n], b[n], keep);
      assert b == b[..n] + [b[n]];
    }
  }

  lemma FilterAppendLast<T(!new)>(a: seq<T>, b: seq<T>, x: T, keep: T -> bool)
    requires Filter(a + b, keep) == Filter(a, keep) + Filter(b, keep)
    ensures Filter(a + (b + [x]), keep) == Filter(a, keep) + Filter(b + [x], keep)
  {
    hide Filter;
    FilterLast(a + b, x, keep);
    FilterLast(b, x, keep);
    assert a + (b + [x]) == (a + b) + [x];
  }

  lemma {:induction false} FilterNone<T(!new)>(s: seq<T>, keep: T -> bool)
    requires forall x | x in s :: !keep(x)
    ensures Filter(s, keep) == []
  {
    if s != [] {
      var n := |s| - 1;
      assert s == s[..n] + [s[n]];
      FilterNone(s[..n], keep);
    }
  }

  lemma FilterFront<T(!new)>(x: T, rest: seq<T>, keep: T -> bool)
    ensures Filter([x] + rest, keep) == (if keep(x) then [x] else []) + Filter(rest, keep)
  {
    FilterAppend([x], rest, keep);
    FilterLast([], x, keep);
    assert [] + [x] == [x];
  }

  lemma {:induction false} FindFilter<T(!new)>(s: seq<T>, keep: T -> bool, wanted: T -> bool)
    requires forall x | x in s && wanted(x) :: keep(x)
    ensures Find(Filter(s, keep), wanted) == Find(s, wanted)
  {
    if s != [] {
      hide Filter, Find;
      var x, rest := s[0], s[1..];
      assert s == [x] + rest;
      FindFilter(rest, keep, wanted);
      FilterFront(x, rest, keep);
      FindFront(x, Filter(rest, keep), wanted);
      FindFront(x, rest, wanted);
      assert [] + Filter(rest, keep) == Filter(rest, keep);
    }
  }

  lemma FindFront<T(!new)>(x: T, rest: seq<T>, wanted: T -> bool)
    ensures Find([x] + rest, wanted) == if wanted(x) then Some(x) else Find(rest, wanted)
  {
    assert ([x] + rest)[1..] == rest;
  }
}
