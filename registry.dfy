/** The id-keyed registries of the grid (std::map<std::string, ...> in
    include/Grid.h): a map from id to entity together with its keys in
    ascending order, which is the order a std::map is iterated in. */
module Registries {

  /** std::string's operator<: lexicographic comparison of characters, a
      proper prefix coming first. */
  predicate LexLess(a: string, b: string)
    decreases |a|
  {
    if |a| == 0 then |b| > 0
    else if |b| == 0 then false
    else if a[0] == b[0] then LexLess(a[1..], b[1..])
    else a[0] < b[0]
  }

  lemma {:induction false} LexLessIrreflexive(a: string)
    ensures !LexLess(a, a)
    decreases |a|
  {
    if |a| > 0 {
      LexLessIrreflexive(a[1..]);
    }
  }

  lemma {:induction false} LexLessTransitive(a: string, b: string, c: string)
    requires LexLess(a, b) && LexLess(b, c)
    ensures LexLess(a, c)
    decreases |a|
  {
    if |a| > 0 && a[0] == b[0] && b[0] == c[0] {
      LexLessTransitive(a[1..], b[1..], c[1..]);
    }
  }

  /** Any two different strings are ordered one way or the other. */
  lemma {:induction false} LexLessTotal(a: string, b: string)
    ensures a == b || LexLess(a, b) || LexLess(b, a)
    decreases |a|
  {
    if |a| > 0 && |b| > 0 && a[0] == b[0] {
      LexLessTotal(a[1..], b[1..]);
      if a[1..] == b[1..] {
        assert a == [a[0]] + a[1..] && b == [b[0]] + b[1..];
      }
    }
  }

  /** Strictly ascending, hence without repeats. */
  predicate Sorted(ids: seq<string>) {
    forall i, j :: 0 <= i < j < |ids| ==> LexLess(ids[i], ids[j])
  }

  /** Nothing is listed twice. */
  predicate NoDup<T(==)>(xs: seq<T>) {
    forall i, j :: 0 <= i < j < |xs| ==> xs[i] != xs[j]
  }

  /** Dropping one position of a list without repeats leaves a list without
      repeats that no longer holds the dropped element. */
  lemma DropKeepsNoDup<T>(xs: seq<T>, k: nat)
    requires k < |xs|
    ensures NoDup(xs) ==> NoDup(xs[..k] + xs[k + 1..]) && xs[k] !in xs[..k] + xs[k + 1..]
  {
    var r := xs[..k] + xs[k + 1..];
    if NoDup(xs) {
      forall a, b | 0 <= a < b < |r| ensures r[a] != r[b] {
        var a' := if a < k then a else a + 1;
        var b' := if b < k then b else b + 1;
        assert r[a] == xs[a'] && r[b] == xs[b'];
      }
      forall j | 0 <= j < |r| ensures r[j] != xs[k] {
        var j' := if j < k then j else j + 1;
        assert r[j] == xs[j'];
      }
    }
  }

  lemma SortedNoDup(ids: seq<string>)
    requires Sorted(ids)
    ensures NoDup(ids)
  {
    forall i, j | 0 <= i < j < |ids| ensures ids[i] != ids[j] {
      LexLessIrreflexive(ids[i]);
    }
  }

  /** The keys after inserting x into a std::map: x takes its place in
      ascending order. */
  function Insert(ids: seq<string>, x: string): (r: seq<string>)
    ensures |r| == |ids| + 1
    ensures forall y :: y in r <==> y == x || y in ids
  {
    if ids == [] then [x]
    else if LexLess(x, ids[0]) then [x] + ids
    else [ids[0]] + Insert(ids[1..], x)
  }

  lemma {:induction false} InsertSorted(ids: seq<string>, x: string)
    requires Sorted(ids) && x !in ids
    ensures Sorted(Insert(ids, x))
  {
    if ids != [] {
      if LexLess(x, ids[0]) {
        forall j | 0 < j < |ids| ensures LexLess(x, ids[j]) {
          LexLessTransitive(x, ids[0], ids[j]);
        }
      } else {
        LexLessTotal(x, ids[0]);
        InsertSorted(ids[1..], x);
        var r := Insert(ids, x);
        forall i, j | 0 <= i < j < |r| ensures LexLess(r[i], r[j]) {
          if i == 0 {
            assert r[j] in Insert(ids[1..], x);
            if r[j] != x {
              var u :| 0 <= u < |ids[1..]| && ids[1..][u] == r[j];
              assert ids[u + 1] == r[j];
            }
          }
        }
      }
    }
  }

  /** The keys after erasing x from a std::map. */
  function Erase(ids: seq<string>, x: string): (r: seq<string>)
    ensures |r| <= |ids|
    ensures forall y :: y in r <==> y in ids && y != x
  {
    if ids == [] then []
    else (if ids[0] == x then [] else [ids[0]]) + Erase(ids[1..], x)
  }

  lemma {:induction false} EraseSorted(ids: seq<string>, x: string)
    requires Sorted(ids)
    ensures Sorted(Erase(ids, x))
  {
    if ids != [] {
      EraseSorted(ids[1..], x);
      var r := Erase(ids, x);
      var tail := Erase(ids[1..], x);
      forall i, j | 0 <= i < j < |r| ensures LexLess(r[i], r[j]) {
        if ids[0] != x && i == 0 {
          assert r[j] in tail;
          var u :| 0 <= u < |ids[1..]| && ids[1..][u] == r[j];
          assert ids[u + 1] == r[j];
        }
      }
    }
  }

  /** The first position of x in ids, or |ids| when it does not occur: a
      std::find_if. */
  function Find(ids: seq<string>, x: string): (k: nat)
    ensures k <= |ids|
    ensures k < |ids| ==> ids[k] == x
    ensures forall j :: 0 <= j < k ==> ids[j] != x
  {
    if ids == [] then 0 else if ids[0] == x then 0 else 1 + Find(ids[1..], x)
  }

  /** Find is the first position holding x. */
  lemma {:induction false} FindIs(ids: seq<string>, x: string, k: nat)
    requires k <= |ids| && (k < |ids| ==> ids[k] == x)
    requires forall j :: 0 <= j < k ==> ids[j] != x
    ensures Find(ids, x) == k
  {
    if k > 0 {
      assert ids[0] != x;
      FindIs(ids[1..], x, k - 1);
    }
  }

  /** Busbar::disconnectLoad / disconnectSource on a list of ids: the first
      occurrence of x, if any, leaves the list. */
  function RemoveFirst(ids: seq<string>, x: string): seq<string> {
    var k := Find(ids, x);
    if k < |ids| then ids[..k] + ids[k + 1..] else ids
  }

  /** On a list without repeats, RemoveFirst drops x and only x. */
  lemma RemoveFirstSpec(ids: seq<string>, x: string)
    requires NoDup(ids)
    ensures NoDup(RemoveFirst(ids, x))
    ensures forall y :: y in RemoveFirst(ids, x) <==> y in ids && y != x
  {
    var k := Find(ids, x);
    if k < |ids| {
      DropKeepsNoDup(ids, k);
      var r := ids[..k] + ids[k + 1..];
      forall y | y in ids && y != x ensures y in r {
        var j :| 0 <= j < |ids| && ids[j] == y;
        assert r[if j < k then j else j - 1] == y;
      }
    }
  }

  /** The entries registered under ids, in the order of ids. */
  function At<T>(ids: seq<string>, m: map<string, T>): (r: seq<T>)
    requires forall i :: 0 <= i < |ids| ==> ids[i] in m
    ensures |r| == |ids|
  {
    seq(|ids|, i requires 0 <= i < |ids| => m[ids[i]])
  }

  /** Entries outside ex are the same in m and m'. */
  ghost predicate AgreeOutside<T>(m: map<string, T>, m': map<string, T>, ex: seq<string>) {
    m'.Keys == m.Keys && forall k :: k in m && k !in ex ==> m'[k] == m[k]
  }

  /** The entries of ids, none of them in ex, are not affected by changes
      confined to ex. */
  lemma AtOutside<T>(ids: seq<string>, m: map<string, T>, m': map<string, T>, ex: seq<string>)
    requires forall i :: 0 <= i < |ids| ==> ids[i] in m && ids[i] !in ex
    requires AgreeOutside(m, m', ex)
    ensures At(ids, m') == At(ids, m)
  {
  }
}
