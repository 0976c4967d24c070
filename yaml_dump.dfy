/**
 * What `yaml.dump` does to a document before writing it: with PyYAML's
 * default `sort_keys=True` every mapping is emitted with its keys in
 * ascending code-point order, so the next `yaml.load` sees them in that
 * order. Only this reordering is modelled; the YAML text is not.
 */
module YamlDump {
  import opened PyValue

  /** Python's `a < b` on strings: code-point lexicographic order. */
  predicate KeyLess(a: string, b: string)
  {
    if a == [] then b != []
    else if b == [] then false
    else if a[0] != b[0] then a[0] < b[0]
    else KeyLess(a[1..], b[1..])
  }

  /** The order is strict: no two keys precede each other. */
  lemma {:induction false} KeyLessAsymmetric(a: string, b: string)
    requires KeyLess(a, b)
    ensures !KeyLess(b, a)
  {
    if a != [] && b != [] && a[0] == b[0] {
      KeyLessAsymmetric(a[1..], b[1..]);
    }
  }

  /** Two keys sharing their first `n` characters are ordered by the next one. */
  lemma {:induction false} KeyLessAt(a: string, b: string, n: nat)
    requires n < |a| && n < |b| && a[..n] == b[..n] && a[n] < b[n]
    ensures KeyLess(a, b)
  {
    if n > 0 {
      assert a[0] == a[..n][0] == b[..n][0] == b[0];
      assert a[1..][..n - 1] == a[..n][1..];
      assert b[1..][..n - 1] == b[..n][1..];
      KeyLessAt(a[1..], b[1..], n - 1);
    }
  }

  /** Keys appear in ascending order (equal neighbours allowed). */
  predicate Sorted(es: seq<(string, Value)>)
  {
    forall k :: 0 < k < |es| ==> !KeyLess(es[k].0, es[k - 1].0)
  }

  /** Keys appear in strictly ascending order. */
  predicate StrictlySorted(es: seq<(string, Value)>)
  {
    forall k :: 0 < k < |es| ==> KeyLess(es[k - 1].0, es[k].0)
  }

  /** Insert one entry before the first entry whose key is greater. */
  function Insert(e: (string, Value), es: seq<(string, Value)>): (r: seq<(string, Value)>)
    ensures |r| == |es| + 1
  {
    if es == [] || KeyLess(e.0, es[0].0) then [e] + es
    else [es[0]] + Insert(e, es[1..])
  }

  /** Insertion sort of a mapping's entries by key. */
  function SortEntries(es: seq<(string, Value)>): (r: seq<(string, Value)>)
    ensures |r| == |es|
  {
    if es == [] then [] else Insert(es[0], SortEntries(es[1..]))
  }

  /** The document as the next load sees it after `yaml.dump`: every mapping sorted by key. */
  function Dump(v: Value): Value
    decreases v, 1
  {
    match v
    case VList(xs) => VList(seq(|xs|, i requires 0 <= i < |xs| => Dump(xs[i])))
    case VMap(es) => VMap(SortEntries(DumpEntries(es)))
    case _ => v
  }

  /** The entries of a mapping with each value dumped, keys untouched. */
  function DumpEntries(es: seq<(string, Value)>): (r: seq<(string, Value)>)
    ensures |r| == |es|
    ensures forall i :: 0 <= i < |es| ==> r[i] == (es[i].0, Dump(es[i].1))
    decreases VMap(es), 0
  {
    seq(|es|, i requires 0 <= i < |es| => (es[i].0, Dump(es[i].1)))
  }

  /** Inserting keeps the entries (as a multiset) and adds the new one. */
  lemma {:induction false} InsertPermutes(e: (string, Value), es: seq<(string, Value)>)
    ensures multiset(Insert(e, es)) == multiset(es) + multiset{e}
  {
    if es != [] && !KeyLess(e.0, es[0].0) {
      InsertPermutes(e, es[1..]);
      assert es == [es[0]] + es[1..];
    }
  }

  /** Inserting into a sorted sequence keeps it sorted, and its head is the smaller of the two candidates. */
  lemma {:induction false} InsertSorted(e: (string, Value), es: seq<(string, Value)>)
    requires Sorted(es)
    ensures Sorted(Insert(e, es))
    ensures Insert(e, es)[0] == e || (es != [] && Insert(e, es)[0] == es[0])
  {
    if es == [] {
    } else if KeyLess(e.0, es[0].0) {
      KeyLessAsymmetric(e.0, es[0].0);
    } else {
      var tail := es[1..];
      assert Sorted(tail);
      InsertSorted(e, tail);
      var r := Insert(e, es);
      assert r == [es[0]] + Insert(e, tail);
      forall k | 0 < k < |r|
        ensures !KeyLess(r[k].0, r[k - 1].0)
      {
        if k > 1 {
          assert r[k] == Insert(e, tail)[k - 1] && r[k - 1] == Insert(e, tail)[k - 2];
        }
      }
    }
  }

  /**
   * `sorted(mapping)` in PyYAML's representer: the result is in key order
   * and holds exactly the same entries.
   */
  lemma {:induction false} SortEntriesSorts(es: seq<(string, Value)>)
    ensures Sorted(SortEntries(es))
    ensures multiset(SortEntries(es)) == multiset(es)
  {
    if es != [] {
      SortEntriesSorts(es[1..]);
      InsertSorted(es[0], SortEntries(es[1..]));
      InsertPermutes(es[0], SortEntries(es[1..]));
      assert es == [es[0]] + es[1..];
    }
  }

  /** A mapping already in strictly ascending key order is emitted as it is. */
  lemma {:induction false} SortEntriesKeepsSorted(es: seq<(string, Value)>)
    requires StrictlySorted(es)
    ensures SortEntries(es) == es
  {
    if es != [] {
      assert StrictlySorted(es[1..]);
      SortEntriesKeepsSorted(es[1..]);
      assert es == [es[0]] + es[1..];
    }
  }

  /** Unfolding of SortEntries on an explicit head. */
  lemma SortCons(e: (string, Value), es: seq<(string, Value)>)
    ensures SortEntries([e] + es) == Insert(e, SortEntries(es))
  {
    assert ([e] + es)[1..] == es;
  }

  /** The top-level mapping of a dumped document holds its keys in order, and the same entries once dumped. */
  lemma DumpSortsMapping(es: seq<(string, Value)>)
    ensures Dump(VMap(es)).VMap?
    ensures Sorted(Dump(VMap(es)).entries)
    ensures multiset(Dump(VMap(es)).entries) == multiset(DumpEntries(es))
  {
    SortEntriesSorts(DumpEntries(es));
  }
}
