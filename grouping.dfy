/** The grouping step shared by both detection modes: every walked file
    contributes one entry (its key and its path), the entries are appended
    to a per-key list in a defaultdict(list), and only the keys whose list
    holds more than one path are kept. */
module Grouping {
  import opened Paths

  /** One walked file: the key it is grouped under and its joined path. */
  datatype Entry = Entry(key: string, path: Path)

  /** The key -> paths accumulator. */
  type Groups = map<string, seq<Path>>

  /** groups[e.key].append(e.path) on a defaultdict(list): a missing key
      starts from the empty list. */
  function AppendTo(g: Groups, e: Entry): Groups
  {
    g[e.key := (if e.key in g then g[e.key] else []) + [e.path]]
  }

  /** The accumulator after the entries have been appended in order. */
  function Accumulate(es: seq<Entry>): Groups
  {
    if es == [] then map[] else AppendTo(Accumulate(es[..|es| - 1]), es[|es| - 1])
  }

  /** The final filter `{k: paths for k, paths in g.items() if len(paths) > 1}`:
      no singleton group survives, and the groups that do are unchanged. */
  function KeepDuplicates(g: Groups): (r: Groups)
    ensures r.Keys <= g.Keys
    ensures forall k :: k in g ==> (k in r <==> |g[k]| > 1)
    ensures forall k :: k in r ==> r[k] == g[k] && |r[k]| >= 2
  {
    map k | k in g && |g[k]| > 1 :: g[k]
  }

  /** Appending one more entry is one more defaultdict append. */
  lemma AccumulateSnoc(es: seq<Entry>, e: Entry)
    ensures Accumulate(es + [e]) == AppendTo(Accumulate(es), e)
  {
    assert (es + [e])[..|es|] == es;
  }

  /** What either finder returns for the entries of a walk. */
  function Duplicates(es: seq<Entry>): Groups
  {
    KeepDuplicates(Accumulate(es))
  }

  // ---------------------------------------------------------------------
  // Reference definitions, independent of the accumulator

  /** The paths of the entries with key `k`, in walk order. */
  function PathsWithKey(es: seq<Entry>, k: string): seq<Path>
  {
    if es == [] then []
    else (if es[0].key == k then [es[0].path] else []) + PathsWithKey(es[1..], k)
  }

  /** The keys of the entries, in walk order. */
  function KeysOf(es: seq<Entry>): (ks: seq<string>)
    ensures |ks| == |es| && forall i :: 0 <= i < |es| ==> ks[i] == es[i].key
  {
    seq(|es|, i requires 0 <= i < |es| => es[i].key)
  }

  /** How many walked files have key `k`. */
  function KeyCount(es: seq<Entry>, k: string): nat
  {
    multiset(KeysOf(es))[k]
  }

  /** The positions in the walk of the entries with key `k`: strictly
      increasing, and holding exactly those positions. */
  function KeyIndices(es: seq<Entry>, k: string): (idx: seq<nat>)
    ensures forall m :: 0 <= m < |idx| ==> idx[m] < |es| && es[idx[m]].key == k
    ensures forall m, n :: 0 <= m < n < |idx| ==> idx[m] < idx[n]
    ensures forall i :: 0 <= i < |es| && es[i].key == k ==> i in idx
  {
    if es == [] then []
    else KeyIndices(es[..|es| - 1], k) + (if es[|es| - 1].key == k then [|es| - 1] else [])
  }

  /** The sum of the lengths of all lists in the accumulator. */
  ghost function SumLengths(g: Groups): nat
    decreases |g|
  {
    if g == map[] then 0
    else
      var k :| k in g;
      |g[k]| + SumLengths(g - {k})
  }

  // ---------------------------------------------------------------------
  // Facts about the reference definitions

  lemma {:induction false} PathsWithKeyAppend(a: seq<Entry>, b: seq<Entry>, k: string)
    ensures PathsWithKey(a + b, k) == PathsWithKey(a, k) + PathsWithKey(b, k)
    decreases |a|
  {
    if a == [] {
      assert a + b == b;
    } else {
      assert (a + b)[1..] == a[1..] + b;
      PathsWithKeyAppend(a[1..], b, k);
    }
  }

  /** A path is listed under `k` exactly when some entry of the walk put it
      there with that key. */
  lemma {:induction false} PathsWithKeyMembers(es: seq<Entry>, k: string, p: Path)
    ensures p in PathsWithKey(es, k) <==> Entry(k, p) in es
    decreases |es|
  {
    if es != [] {
      PathsWithKeyMembers(es[1..], k, p);
      assert es == [es[0]] + es[1..];
    }
  }

  /** The list under `k` has one path per walked file with key `k`. */
  lemma {:induction false} PathsWithKeyCount(es: seq<Entry>, k: string)
    ensures |PathsWithKey(es, k)| == KeyCount(es, k)
    decreases |es|
  {
    if es != [] {
      PathsWithKeyCount(es[1..], k);
      assert KeysOf(es) == [es[0].key] + KeysOf(es[1..]);
    }
  }

  /** The list under `k` is the walk's paths with key `k`, taken in the
      order the walk produced them. */
  lemma {:induction false} PathsWithKeyInWalkOrder(es: seq<Entry>, k: string)
    ensures |PathsWithKey(es, k)| == |KeyIndices(es, k)|
    ensures forall m :: 0 <= m < |KeyIndices(es, k)| ==>
              PathsWithKey(es, k)[m] == es[KeyIndices(es, k)[m]].path
    decreases |es|
  {
    if es != [] {
      var init, last := es[..|es| - 1], es[|es| - 1];
      PathsWithKeyInWalkOrder(init, k);
      assert es == init + [last];
      PathsWithKeyAppend(init, [last], k);
      assert [last][1..] == [];
    }
  }

  /** The list under `k` is empty exactly when no walked file has key `k`. */
  lemma {:induction false} PathsWithKeyEmpty(es: seq<Entry>, k: string)
    ensures PathsWithKey(es, k) == [] <==> forall i :: 0 <= i < |es| ==> es[i].key != k
    decreases |es|
  {
    if es != [] {
      PathsWithKeyEmpty(es[1..], k);
      assert forall i :: 1 <= i < |es| ==> es[i] == es[1..][i - 1];
    }
  }

  lemma {:induction false} SumLengthsRemove(g: Groups, k: string)
    requires k in g
    ensures SumLengths(g) == |g[k]| + SumLengths(g - {k})
    decreases |g|
  {
    var k' :| k' in g && SumLengths(g) == |g[k']| + SumLengths(g - {k'});
    if k' != k {
      assert g - {k'} - {k} == g - {k} - {k'};
      SumLengthsRemove(g - {k'}, k);
      SumLengthsRemove(g - {k}, k');
    }
  }

  /** One append adds exactly one path to the accumulator. */
  lemma SumLengthsAppendTo(g: Groups, e: Entry)
    ensures SumLengths(AppendTo(g, e)) == SumLengths(g) + 1
  {
    var g' := AppendTo(g, e);
    SumLengthsRemove(g', e.key);
    if e.key in g {
      assert g' - {e.key} == g - {e.key};
      SumLengthsRemove(g, e.key);
    } else {
      assert g' - {e.key} == g;
    }
  }

  // ---------------------------------------------------------------------
  // The accumulator against the reference definitions

  /** After the walk, the accumulator has a list exactly for the keys that
      occur, and that list is the walk's paths with that key, in order. */
  lemma {:induction false} AccumulateIsFilter(es: seq<Entry>, k: string)
    ensures k in Accumulate(es) <==> PathsWithKey(es, k) != []
    ensures k in Accumulate(es) ==> Accumulate(es)[k] == PathsWithKey(es, k)
    decreases |es|
  {
    if es != [] {
      var init, last := es[..|es| - 1], es[|es| - 1];
      AccumulateIsFilter(init, k);
      assert es == init + [last];
      PathsWithKeyAppend(init, [last], k);
      assert [last][1..] == [];
    }
  }

  /** Loop invariant of the accumulation: after `n` files, the list lengths
      sum to `n` (each file lands in exactly one list). */
  lemma {:induction false} AccumulateTotal(es: seq<Entry>)
    ensures SumLengths(Accumulate(es)) == |es|
    decreases |es|
  {
    if es != [] {
      AccumulateTotal(es[..|es| - 1]);
      SumLengthsAppendTo(Accumulate(es[..|es| - 1]), es[|es| - 1]);
    }
  }

  /** The result of a finder: a key is present exactly when at least two
      walked files have it, and its list is the paths of all of them, in
      walk order; so no key of a single file is ever reported. */
  lemma DuplicatesAreRepeatedKeys(es: seq<Entry>, k: string)
    ensures k in Duplicates(es) <==> KeyCount(es, k) >= 2
    ensures k in Duplicates(es) ==>
              Duplicates(es)[k] == PathsWithKey(es, k) && |Duplicates(es)[k]| == KeyCount(es, k)
  {
    AccumulateIsFilter(es, k);
    PathsWithKeyCount(es, k);
  }

  /** Every path reported under `k` was walked with key `k`, and every file
      walked with a repeated key is reported under it. */
  lemma DuplicatesMembers(es: seq<Entry>, k: string, p: Path)
    ensures k in Duplicates(es) && p in Duplicates(es)[k] ==> Entry(k, p) in es
    ensures Entry(k, p) in es && KeyCount(es, k) >= 2 ==> k in Duplicates(es) && p in Duplicates(es)[k]
  {
    DuplicatesAreRepeatedKeys(es, k);
    PathsWithKeyMembers(es, k, p);
  }

  /** Two different entries of the walk with the same key make that key a
      repeated one. */
  lemma TwoEntriesRepeatKey(es: seq<Entry>, e1: Entry, e2: Entry)
    requires e1 in es && e2 in es && e1 != e2 && e1.key == e2.key
    ensures KeyCount(es, e1.key) >= 2
  {
    var a :| 0 <= a < |es| && es[a] == e1;
    var b :| 0 <= b < |es| && es[b] == e2;
    var idx := KeyIndices(es, e1.key);
    assert a in idx && b in idx && a != b;
    var m :| 0 <= m < |idx| && idx[m] == a;
    var n :| 0 <= n < |idx| && idx[n] == b;
    assert m != n;
    PathsWithKeyInWalkOrder(es, e1.key);
    PathsWithKeyCount(es, e1.key);
  }

  /** Positions are listed only for keys that occur. */
  lemma {:induction false} KeyIndicesAbsent(es: seq<Entry>, k: string)
    requires forall i :: 0 <= i < |es| ==> es[i].key != k
    ensures KeyIndices(es, k) == []
    decreases |es|
  {
    if es != [] {
      KeyIndicesAbsent(es[..|es| - 1], k);
    }
  }

  /** When no key repeats, every key sits at one position at most. */
  lemma {:induction false} DistinctKeysAtMostOnce(es: seq<Entry>, k: string)
    requires forall i, j :: 0 <= i < j < |es| ==> es[i].key != es[j].key
    ensures |KeyIndices(es, k)| <= 1
    decreases |es|
  {
    if es != [] {
      var init := es[..|es| - 1];
      assert forall i :: 0 <= i < |init| ==> init[i] == es[i];
      DistinctKeysAtMostOnce(init, k);
      if es[|es| - 1].key == k {
        assert forall i :: 0 <= i < |init| ==> init[i].key != es[|es| - 1].key;
        KeyIndicesAbsent(init, k);
      }
    }
  }

  /** A walk in which no key repeats (in particular an empty walk) has no
      duplicates. */
  lemma DistinctKeysNoDuplicates(es: seq<Entry>)
    requires forall i, j :: 0 <= i < j < |es| ==> es[i].key != es[j].key
    ensures Duplicates(es) == map[]
  {
    forall k
      ensures k !in Duplicates(es)
    {
      DistinctKeysAtMostOnce(es, k);
      DuplicatesAreRepeatedKeys(es, k);
      PathsWithKeyInWalkOrder(es, k);
      PathsWithKeyCount(es, k);
    }
  }
}
