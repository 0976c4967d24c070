/**
 * The loosely typed values that PyYAML's loader hands to the program, with
 * the few pieces of Python semantics the settings code relies on: truth
 * values, `or`, dictionary lookup and item assignment, and the exceptions
 * those raise.
 */
module PyValue {
  import opened Wrappers

  /**
   * A loaded YAML document. Mappings keep their entries in file order, as
   * a Python dict keeps insertion order; keys are strings. `VOther` stands
   * for every other scalar (floats, dates, ...) and carries its truth value.
   */
  datatype Value =
    | VNull
    | VBool(b: bool)
    | VInt(i: int)
    | VStr(s: string)
    | VList(items: seq<Value>)
    | VMap(entries: seq<(string, Value)>)
    | VOther(truthy: bool)

  /** The Python exceptions the modelled code can raise. */
  datatype PyError = AttributeError | KeyError | IndexError | TypeError | FileNotFoundError

  /** A call that returns normally, or the exception that escapes it. */
  datatype Outcome = Pass | Raise(error: PyError)

  /** Python's truth value of a value (`bool(v)`). */
  predicate Truthy(v: Value)
  {
    match v
    case VNull => false
    case VBool(b) => b
    case VInt(i) => i != 0
    case VStr(s) => s != ""
    case VList(xs) => xs != []
    case VMap(es) => es != []
    case VOther(t) => t
  }

  /** Python's `a or b`. */
  function Or(a: Value, b: Value): Value
  {
    if Truthy(a) then a else b
  }

  /** `list(d.keys())`. */
  function Keys(es: seq<(string, Value)>): (ks: seq<string>)
    ensures |ks| == |es|
    ensures forall i :: 0 <= i < |es| ==> ks[i] == es[i].0
  {
    seq(|es|, i requires 0 <= i < |es| => es[i].0)
  }

  /** `d[k]` on a dict's entries: the value of the (first) entry with key k. */
  function Get(es: seq<(string, Value)>, k: string): (r: Option<Value>)
    ensures r.Some? <==> k in Keys(es)
  {
    if es == [] then None
    else if es[0].0 == k then Some(es[0].1)
    else
      var r := Get(es[1..], k);
      assert Keys(es) == [es[0].0] + Keys(es[1..]);
      r
  }

  /** `d[k] = x` on a dict's entries: an existing key keeps its place, a new key goes last. */
  function Put(es: seq<(string, Value)>, k: string, x: Value): seq<(string, Value)>
  {
    if es == [] then [(k, x)]
    else if es[0].0 == k then [(k, x)] + es[1..]
    else [es[0]] + Put(es[1..], k, x)
  }

  /** Python's `v[k]` for a string key. */
  function Index(v: Value, k: string): (r: Result<Value, PyError>)
    ensures r.Ok? <==> v.VMap? && k in Keys(v.entries)
    ensures r.Err? ==> (r.error == KeyError <==> v.VMap?)
  {
    match v
    case VMap(es) => (match Get(es, k) case Some(x) => Ok(x) case None => Err(KeyError))
    case _ => Err(TypeError)
  }

  /** Python's `v[k] = x` for a string key; anything but a dict raises TypeError. */
  function SetItem(v: Value, k: string, x: Value): (r: Result<Value, PyError>)
    ensures r.Ok? <==> v.VMap?
  {
    match v
    case VMap(es) => Ok(VMap(Put(es, k, x)))
    case _ => Err(TypeError)
  }

  /** Assigning to an existing key replaces its value and keeps the key sequence. */
  lemma {:induction false} PutExisting(es: seq<(string, Value)>, k: string, x: Value)
    requires k in Keys(es)
    ensures Keys(Put(es, k, x)) == Keys(es)
    ensures Get(Put(es, k, x), k) == Some(x)
  {
    var r := Put(es, k, x);
    if es[0].0 != k {
      assert k in Keys(es[1..]) by {
        var j :| 0 <= j < |Keys(es)| && Keys(es)[j] == k;
        assert Keys(es[1..])[j - 1] == k;
      }
      PutExisting(es[1..], k, x);
      assert r == [es[0]] + Put(es[1..], k, x);
    } else {
      assert r == [(k, x)] + es[1..];
    }
    assert Keys(r) == Keys(es) by {
      forall j | 0 <= j < |r|
        ensures Keys(r)[j] == Keys(es)[j]
      {
        if j > 0 && es[0].0 != k {
          assert r[j] == Put(es[1..], k, x)[j - 1];
          assert Keys(Put(es[1..], k, x))[j - 1] == Keys(es[1..])[j - 1];
        }
      }
    }
  }

  /** Assigning to a new key appends it. */
  lemma {:induction false} PutFresh(es: seq<(string, Value)>, k: string, x: Value)
    requires k !in Keys(es)
    ensures Put(es, k, x) == es + [(k, x)]
  {
    if es != [] {
      assert Keys(es)[0] == es[0].0;
      assert k !in Keys(es[1..]) by {
        forall j | 0 <= j < |es[1..]|
          ensures Keys(es[1..])[j] != k
        {
          assert Keys(es[1..])[j] == Keys(es)[j + 1];
        }
      }
      PutFresh(es[1..], k, x);
      assert Put(es, k, x) == [es[0]] + (es[1..] + [(k, x)]);
      assert [es[0]] + (es[1..] + [(k, x)]) == es + [(k, x)];
    }
  }

  /** Assigning to one key leaves the lookup of every other key alone. */
  lemma {:induction false} PutOther(es: seq<(string, Value)>, k: string, x: Value, k': string)
    requires k' != k
    ensures Get(Put(es, k, x), k') == Get(es, k')
  {
    if es != [] && es[0].0 != k {
      PutOther(es[1..], k, x, k');
    }
  }

  /** A lookup finds the first entry with the key. */
  lemma {:induction false} GetAt(es: seq<(string, Value)>, j: nat)
    requires j < |es| && forall i :: 0 <= i < j ==> es[i].0 != es[j].0
    ensures Get(es, es[j].0) == Some(es[j].1)
  {
    if j > 0 {
      assert es[1..][j - 1] == es[j];
      GetAt(es[1..], j - 1);
    }
  }

  /** Assigning to the key of the first entry that has it replaces that entry in place. */
  lemma {:induction false} PutAt(es: seq<(string, Value)>, j: nat, x: Value)
    requires j < |es| && forall i :: 0 <= i < j ==> es[i].0 != es[j].0
    ensures Put(es, es[j].0, x) == es[j := (es[j].0, x)]
  {
    if j > 0 {
      assert es[1..][j - 1] == es[j];
      PutAt(es[1..], j - 1, x);
      assert es[1..][j - 1 := (es[j].0, x)] == es[j := (es[j].0, x)][1..];
    }
  }

  /** After an assignment the key is always present with the assigned value. */
  lemma {:induction false} PutGet(es: seq<(string, Value)>, k: string, x: Value)
    ensures Get(Put(es, k, x), k) == Some(x)
  {
    if es != [] && es[0].0 != k {
      PutGet(es[1..], k, x);
    }
  }
}
