/** The array pipelines the list pages build from static records:
    `findIndex`, the "keep the first record per id" filter, the insertion-ordered
    `Set` of categories, the category filter and `map`. */
module Lists {

  /** `xs.map(f)`. */
  function MapSeq<T, U>(xs: seq<T>, f: T -> U): (r: seq<U>)
    ensures |r| == |xs|
    ensures forall i :: 0 <= i < |xs| ==> r[i] == f(xs[i])
  {
    if xs == [] then [] else [f(xs[0])] + MapSeq(xs[1..], f)
  }

  /** `xs.findIndex(t => key(t) === k)`: the first index whose key is `k`, or -1. */
  function FindIndex<T, K(==)>(xs: seq<T>, key: T -> K, k: K): (r: int)
    ensures -1 <= r < |xs|
    ensures r == -1 ==> forall i :: 0 <= i < |xs| ==> key(xs[i]) != k
    ensures 0 <= r ==> key(xs[r]) == k && forall i :: 0 <= i < r ==> key(xs[i]) != k
  {
    if xs == [] then -1
    else if key(xs[0]) == k then 0
    else
      var j := FindIndex(xs[1..], key, k);
      if j == -1 then -1 else j + 1
  }

  /** The first index of a key that occurs at `m` is at most `m`. */
  lemma FindIndexAtMost<T, K>(xs: seq<T>, key: T -> K, m: nat)
    requires m < |xs|
    ensures 0 <= FindIndex(xs, key, key(xs[m])) <= m
  {
  }

  /** `r` can be obtained from `xs` by deleting elements (order kept). */
  predicate IsSubseq<T(==)>(r: seq<T>, xs: seq<T>)
    decreases |xs|
  {
    if r == [] then true
    else if xs == [] then false
    else (r[0] == xs[0] && IsSubseq(r[1..], xs[1..])) || IsSubseq(r, xs[1..])
  }

  /** The keys of a list, in order. */
  function Keys<T, K>(xs: seq<T>, key: T -> K): (r: seq<K>) {
    MapSeq(xs, key)
  }

  /** The filter `(v, i, a) => a.findIndex(t => key(t) === key(v)) === i`, applied from index `i` on. */
  function KeepFirstFrom<T, K(==)>(xs: seq<T>, key: T -> K, i: nat): (r: seq<T>)
    requires i <= |xs|
    decreases |xs| - i
  {
    if i == |xs| then []
    else (if FindIndex(xs, key, key(xs[i])) == i then [xs[i]] else []) + KeepFirstFrom(xs, key, i + 1)
  }

  /** Keeps the first record for each key, in the order of the input. */
  function DedupBy<T, K(==)>(xs: seq<T>, key: T -> K): (r: seq<T>) {
    KeepFirstFrom(xs, key, 0)
  }

  /** Each record `KeepFirstFrom(xs, key, i)` keeps is the first with its key, found at or after `i`. */
  lemma {:induction false} KeepFirstFromFirsts<T, K>(xs: seq<T>, key: T -> K, i: nat)
    requires i <= |xs|
    ensures forall j :: 0 <= j < |KeepFirstFrom(xs, key, i)| ==>
        i <= FindIndex(xs, key, key(KeepFirstFrom(xs, key, i)[j])) && KeepFirstFrom(xs, key, i)[j] == xs[FindIndex(xs, key, key(KeepFirstFrom(xs, key, i)[j]))]
    decreases |xs| - i
  {
    if i < |xs| {
      KeepFirstFromFirsts(xs, key, i + 1);
      var rest := KeepFirstFrom(xs, key, i + 1);
      var r := KeepFirstFrom(xs, key, i);
      if FindIndex(xs, key, key(xs[i])) == i {
        assert r == [xs[i]] + rest;
        forall j | 0 <= j < |r|
          ensures i <= FindIndex(xs, key, key(r[j])) && r[j] == xs[FindIndex(xs, key, key(r[j]))]
        {
          if j > 0 {
            assert r[j] == rest[j - 1];
          }
        }
      } else {
        assert r == rest;
      }
    }
  }

  /** The kept records appear in increasing order of their first positions. */
  lemma {:induction false} KeepFirstFromOrdered<T, K>(xs: seq<T>, key: T -> K, i: nat)
    requires i <= |xs|
    ensures forall p, q :: 0 <= p < q < |KeepFirstFrom(xs, key, i)| ==>
        FindIndex(xs, key, key(KeepFirstFrom(xs, key, i)[p])) < FindIndex(xs, key, key(KeepFirstFrom(xs, key, i)[q]))
    decreases |xs| - i
  {
    if i < |xs| {
      KeepFirstFromOrdered(xs, key, i + 1);
      KeepFirstFromFirsts(xs, key, i + 1);
      var rest := KeepFirstFrom(xs, key, i + 1);
      if FindIndex(xs, key, key(xs[i])) == i {
        var r := KeepFirstFrom(xs, key, i);
        assert r == [xs[i]] + rest;
        forall p, q | 0 <= p < q < |r|
          ensures FindIndex(xs, key, key(r[p])) < FindIndex(xs, key, key(r[q]))
        {
          assert r[q] == rest[q - 1];
          assert i + 1 <= FindIndex(xs, key, key(rest[q - 1]));
          if p > 0 {
            assert r[p] == rest[p - 1];
          } else {
            assert r[p] == xs[i];
          }
        }
      } else {
        assert KeepFirstFrom(xs, key, i) == rest;
      }
    }
  }

  /** Every key whose first position is at or after `i` is among the kept keys. */
  lemma {:induction false} KeepFirstFromCovers<T, K>(xs: seq<T>, key: T -> K, i: nat)
    requires i <= |xs|
    ensures forall m :: i <= m < |xs| && i <= FindIndex(xs, key, key(xs[m])) ==> key(xs[m]) in Keys(KeepFirstFrom(xs, key, i), key)
    decreases |xs| - i
  {
    if i < |xs| {
      KeepFirstFromCovers(xs, key, i + 1);
      var rest := KeepFirstFrom(xs, key, i + 1);
      var r := KeepFirstFrom(xs, key, i);
      FindIndexAtMost(xs, key, i);
      if FindIndex(xs, key, key(xs[i])) == i {
        assert r == [xs[i]] + rest;
        forall m | i <= m < |xs| && i <= FindIndex(xs, key, key(xs[m]))
          ensures key(xs[m]) in Keys(r, key)
        {
          FindIndexAtMost(xs, key, m);
          if FindIndex(xs, key, key(xs[m])) == i {
            assert Keys(r, key)[0] == key(xs[m]);
          } else {
            var j :| 0 <= j < |rest| && Keys(rest, key)[j] == key(xs[m]);
            assert Keys(r, key)[j + 1] == key(xs[m]);
          }
        }
      } else {
        assert r == rest;
        forall m | i <= m < |xs| && i <= FindIndex(xs, key, key(xs[m]))
          ensures key(xs[m]) in Keys(r, key)
        {
          FindIndexAtMost(xs, key, m);
        }
      }
    }
  }

  /** The kept records form a subsequence of the input from `i` on. */
  lemma {:induction false} KeepFirstFromSubseq<T, K>(xs: seq<T>, key: T -> K, i: nat)
    requires i <= |xs|
    ensures IsSubseq(KeepFirstFrom(xs, key, i), xs[i..])
    decreases |xs| - i
  {
    if i < |xs| {
      KeepFirstFromSubseq(xs, key, i + 1);
      assert xs[i..][1..] == xs[i + 1..];
      var rest := KeepFirstFrom(xs, key, i + 1);
      var r := KeepFirstFrom(xs, key, i);
      if FindIndex(xs, key, key(xs[i])) == i {
        assert r == [xs[i]] + rest;
        assert r[1..] == rest;
      } else {
        assert r == rest;
        SubseqSkip(rest, xs[i..]);
      }
    }
  }

  /** A subsequence of the tail is a subsequence of the whole. */
  lemma SubseqSkip<T>(r: seq<T>, xs: seq<T>)
    requires xs != [] && IsSubseq(r, xs[1..])
    ensures IsSubseq(r, xs)
  {
  }

  /** Dedup by key, as a whole: every kept record is the first with its key, kept
      records have pairwise distinct keys and appear in input order, every input key
      survives, and the result is a subsequence of the input. */
  lemma DedupBySpec<T, K>(xs: seq<T>, key: T -> K)
    ensures (forall j :: 0 <= j < |DedupBy(xs, key)| ==> 
            0 <= FindIndex(xs, key, key(DedupBy(xs, key)[j])) && DedupBy(xs, key)[j] == xs[FindIndex(xs, key, key(DedupBy(xs, key)[j]))])
    ensures (forall p, q :: 0 <= p < q < |DedupBy(xs, key)| ==> key(DedupBy(xs, key)[p]) != key(DedupBy(xs, key)[q]))
    ensures (forall p, q :: 0 <= p < q < |DedupBy(xs, key)| ==> 
            FindIndex(xs, key, key(DedupBy(xs, key)[p])) < FindIndex(xs, key, key(DedupBy(xs, key)[q])))
    ensures (forall m :: 0 <= m < |xs| ==> key(xs[m]) in Keys(DedupBy(xs, key), key))
    ensures IsSubseq(DedupBy(xs, key), xs)
  {
    var r := DedupBy(xs, key);
    KeepFirstFromFirsts(xs, key, 0);
    KeepFirstFromOrdered(xs, key, 0);
    DedupByCovers(xs, key);
    KeepFirstFromSubseq(xs, key, 0);
    assert xs[0..] == xs;
    forall p, q | 0 <= p < q < |r| ensures key(r[p]) != key(r[q]) {
      assert FindIndex(xs, key, key(r[p])) < FindIndex(xs, key, key(r[q]));
    }
  }

  /** Every key of the input is a key of the deduplicated list. */
  lemma DedupByCovers<T, K>(xs: seq<T>, key: T -> K)
    ensures forall m :: 0 <= m < |xs| ==> key(xs[m]) in Keys(DedupBy(xs, key), key)
  {
    KeepFirstFromCovers(xs, key, 0);
    forall m | 0 <= m < |xs| ensures key(xs[m]) in Keys(DedupBy(xs, key), key) {
      FindIndexAtMost(xs, key, m);
    }
  }

  /** Dedup never grows the list, and leaves a list of distinct keys as it was. */
  lemma {:induction false} DedupByDistinctUnchanged<T, K>(xs: seq<T>, key: T -> K, i: nat)
    requires i <= |xs|
    requires forall p, q :: 0 <= p < q < |xs| ==> key(xs[p]) != key(xs[q])
    ensures KeepFirstFrom(xs, key, i) == xs[i..]
    decreases |xs| - i
  {
    if i < |xs| {
      DedupByDistinctUnchanged(xs, key, i + 1);
      FindIndexAtMost(xs, key, i);
      assert xs[i..] == [xs[i]] + xs[i + 1..];
    }
  }

  /** `[...new Set(xs)]`: each value once, in the order first seen. */
  function Distinct<K(==)>(xs: seq<K>): (r: seq<K>) {
    DedupBy(xs, Identity)
  }

  function Identity<K>(k: K): K { k }

  /** The insertion-ordered set: no repeats, nothing new, nothing lost, first-seen order. */
  lemma DistinctSpec<K>(xs: seq<K>)
    ensures (forall p, q :: 0 <= p < q < |Distinct(xs)| ==> Distinct(xs)[p] != Distinct(xs)[q])
    ensures (forall k :: k in Distinct(xs) <==> k in xs)
    ensures (forall p, q :: 0 <= p < q < |Distinct(xs)| ==>
            FindIndex(xs, Identity, Distinct(xs)[p]) < FindIndex(xs, Identity, Distinct(xs)[q]))
    ensures IsSubseq(Distinct(xs), xs)
  {
    var id := Identity;
    DedupBySpec(xs, id);
    var r := Distinct(xs);
    assert forall j :: 0 <= j < |Keys(r, id)| ==> Keys(r, id)[j] == r[j];
    assert Keys(r, id) == r;
    forall k | k in r ensures k in xs {
      var j :| 0 <= j < |r| && r[j] == k;
      assert r[j] == xs[FindIndex(xs, id, r[j])];
    }
  }

  /** `xs.filter(t => key(t) === k)`. */
  function FilterBy<T, K(==)>(xs: seq<T>, key: T -> K, k: K): (r: seq<T>) {
    if xs == [] then []
    else (if key(xs[0]) == k then [xs[0]] else []) + FilterBy(xs[1..], key, k)
  }

  /** How many records of `xs` have key `k`. */
  function CountKey<T, K(==)>(xs: seq<T>, key: T -> K, k: K): (r: nat) {
    if xs == [] then 0 else (if key(xs[0]) == k then 1 else 0) + CountKey(xs[1..], key, k)
  }

  /** The category filter keeps exactly the records with that key: every kept record
      has it, every record that has it is kept, as many as there are, in input order. */
  lemma {:induction false} FilterBySpec<T, K>(xs: seq<T>, key: T -> K, k: K)
    ensures (forall j :: 0 <= j < |FilterBy(xs, key, k)| ==> key(FilterBy(xs, key, k)[j]) == k)
    ensures (forall i :: 0 <= i < |xs| && key(xs[i]) == k ==> xs[i] in FilterBy(xs, key, k))
    ensures |FilterBy(xs, key, k)| == CountKey(xs, key, k)
    ensures IsSubseq(FilterBy(xs, key, k), xs)
  {
    if xs != [] {
      FilterBySpec(xs[1..], key, k);
      var rest := FilterBy(xs[1..], key, k);
      var r := FilterBy(xs, key, k);
      if key(xs[0]) == k {
        assert r == [xs[0]] + rest;
        assert r[1..] == rest;
        forall i | 0 <= i < |xs| && key(xs[i]) == k ensures xs[i] in r {
          if i > 0 {
            assert xs[i] == xs[1..][i - 1];
          }
        }
      } else {
        assert r == rest;
        forall i | 0 <= i < |xs| && key(xs[i]) == k ensures xs[i] in r {
          assert i > 0 && xs[i] == xs[1..][i - 1];
        }
      }
    }
  }

  /** A key that some record carries selects a non-empty list. */
  lemma FilterByNonEmpty<T, K>(xs: seq<T>, key: T -> K, k: K)
    requires k in Keys(xs, key)
    ensures |FilterBy(xs, key, k)| > 0
  {
    FilterBySpec(xs, key, k);
    var i :| 0 <= i < |xs| && Keys(xs, key)[i] == k;
    assert xs[i] in FilterBy(xs, key, k);
  }

  /** The filter value that selects every record. */
  const All: string := "All"

  /** The filter buttons of a list page: `['All', ...new Set(xs.map(category))]`. */
  function FilterOptions<T>(xs: seq<T>, category: T -> string): (r: seq<string>) {
    [All] + Distinct(MapSeq(xs, category))
  }

  /** The filter effect: `'All'` shows every record, any other value the records of that category. */
  function ApplyFilter<T>(xs: seq<T>, category: T -> string, filter: string): (r: seq<T>) {
    if filter == All then xs else FilterBy(xs, category, filter)
  }

  /** The buttons: `'All'` first, then every category some record carries, each once. */
  lemma FilterOptionsSpec<T>(xs: seq<T>, category: T -> string)
    ensures |FilterOptions(xs, category)| >= 1 && FilterOptions(xs, category)[0] == All
    ensures forall p, q :: 1 <= p < q < |FilterOptions(xs, category)| ==>
      FilterOptions(xs, category)[p] != FilterOptions(xs, category)[q]
    ensures forall c :: c in FilterOptions(xs, category)[1..] <==> c in MapSeq(xs, category)
    ensures forall p, q :: 1 <= p < q < |FilterOptions(xs, category)| ==>
      FindIndex(MapSeq(xs, category), Identity, FilterOptions(xs, category)[p]) <
      FindIndex(MapSeq(xs, category), Identity, FilterOptions(xs, category)[q])
    ensures IsSubseq(FilterOptions(xs, category)[1..], MapSeq(xs, category))
  {
    DistinctSpec(MapSeq(xs, category));
    var opts := FilterOptions(xs, category);
    assert opts[1..] == Distinct(MapSeq(xs, category));
    forall p, q | 1 <= p < q < |opts|
      ensures FindIndex(MapSeq(xs, category), Identity, opts[p]) < FindIndex(MapSeq(xs, category), Identity, opts[q])
    {
      assert opts[p] == opts[1..][p - 1] && opts[q] == opts[1..][q - 1];
    }
  }

  /** `'All'` gives the whole list; any other filter gives exactly the records of
      that category, as many as there are, in list order. */
  lemma ApplyFilterSpec<T>(xs: seq<T>, category: T -> string, filter: string)
    ensures filter == All ==> ApplyFilter(xs, category, filter) == xs
    ensures filter != All ==> forall j :: 0 <= j < |ApplyFilter(xs, category, filter)| ==>
      category(ApplyFilter(xs, category, filter)[j]) == filter
    ensures filter != All ==> forall i :: 0 <= i < |xs| && category(xs[i]) == filter ==>
      xs[i] in ApplyFilter(xs, category, filter)
    ensures filter != All ==> |ApplyFilter(xs, category, filter)| == CountKey(xs, category, filter)
    ensures IsSubseq(ApplyFilter(xs, category, filter), xs)
  {
    if filter == All {
      SubseqRefl(xs);
    } else {
      FilterBySpec(xs, category, filter);
    }
  }

  lemma {:induction false} SubseqRefl<T>(xs: seq<T>)
    ensures IsSubseq(xs, xs)
  {
    if xs != [] {
      SubseqRefl(xs[1..]);
    }
  }

  /** Every button other than `'All'` selects at least one record. */
  lemma OfferedFilterNonEmpty<T>(xs: seq<T>, category: T -> string, filter: string)
    requires filter in FilterOptions(xs, category) && filter != All
    ensures |ApplyFilter(xs, category, filter)| > 0
  {
    FilterOptionsSpec(xs, category);
    var opts := FilterOptions(xs, category);
    var p :| 0 <= p < |opts| && opts[p] == filter;
    assert p >= 1 && filter == opts[1..][p - 1];
    FilterByNonEmpty(xs, category, filter);
  }

  /** What a list section renders: the grid of records, or the empty-state message. */
  datatype Section<T> = Grid(items: seq<T>) | EmptyMessage(text: string)

  function GridOrMessage<T>(items: seq<T>, message: string): (r: Section<T>)
    ensures r.Grid? <==> |items| > 0
    ensures r.Grid? ==> r.items == items
    ensures r.EmptyMessage? ==> r.text == message
  {
    if |items| > 0 then Grid(items) else EmptyMessage(message)
  }

  /** The staggered animation delay `index % 3 * 100` of a card in a three-column grid. */
  function StaggerDelay(index: nat): (d: nat)
    ensures d == 0 || d == 100 || d == 200
    ensures d / 100 == index % 3
  {
    index % 3 * 100
  }
}
