/** Python values as the pipeline-step base class sees them: configuration attributes, the
    `in_out` dictionaries of a schedule, and the results of a run. Dictionaries keep their
    insertion order as a sequence of entries. */
module StepValues {
  import opened Wrappers

  datatype Value =
    | VNone
    | VBool(b: bool)
    | VInt(i: int)
    | VStr(s: string)
    | VList(items: seq<Value>)
    | VDict(entries: seq<Entry>)
      /** An instance carrying attributes in its `__dict__`. */
    | VObject(attrs: seq<Entry>)
      /** A Python function: callable, and it carries a `__dict__` of its own. */
    | VFunction(attrs: seq<Entry>)
      /** A callable without `__dict__`, such as a built-in. */
    | VBuiltin

  datatype Entry = Entry(key: string, value: Value)

  /** Python truthiness. Objects and functions are always true. */
  predicate Truthy(v: Value) {
    match v
    case VNone => false
    case VBool(b) => b
    case VInt(i) => i != 0
    case VStr(s) => s != ""
    case VList(items) => items != []
    case VDict(entries) => entries != []
    case _ => true
  }

  function Keys(es: seq<Entry>): (ks: seq<string>)
    ensures |ks| == |es| && forall i :: 0 <= i < |es| ==> ks[i] == es[i].key
  {
    seq(|es|, i requires 0 <= i < |es| => es[i].key)
  }

  /** No key occurs twice, as in every Python dict. */
  predicate WellFormed(es: seq<Entry>) {
    forall i, j :: 0 <= i < j < |es| ==> es[i].key != es[j].key
  }

  /** `d.get(key)`: the value stored under `key`, if any. */
  function Lookup(es: seq<Entry>, key: string): (r: Option<Value>)
    ensures r.Some? <==> key in Keys(es)
    ensures r.Some? ==> exists i :: 0 <= i < |es| && es[i] == Entry(key, r.value)
  {
    if |es| == 0 then None
    else if es[0].key == key then Some(es[0].value)
    else Lookup(es[1..], key)
  }

  /** `d[key] = value`: overwrite in place when present, otherwise append. */
  function Put(es: seq<Entry>, key: string, value: Value): (r: seq<Entry>)
    ensures key in Keys(es) ==> Keys(r) == Keys(es)
    ensures key !in Keys(es) ==> Keys(r) == Keys(es) + [key]
  {
    if |es| == 0 then [Entry(key, value)]
    else
      KeysCons(es[0], es[1..]);
      assert [es[0]] + es[1..] == es;
      if es[0].key == key then
        KeysCons(Entry(key, value), es[1..]);
        [Entry(key, value)] + es[1..]
      else
        var rest := Put(es[1..], key, value);
        KeysCons(es[0], rest);
        [es[0]] + rest
  }

  lemma KeysCons(e: Entry, es: seq<Entry>)
    ensures Keys([e] + es) == [e.key] + Keys(es)
  {
  }

  /** After `d[key] = value`, `d[key]` is `value` and every other key reads as before. */
  lemma {:induction false} PutLookup(es: seq<Entry>, key: string, value: Value, other: string)
    ensures Lookup(Put(es, key, value), key) == Some(value)
    ensures other != key ==> Lookup(Put(es, key, value), other) == Lookup(es, other)
  {
    if |es| > 0 && es[0].key != key {
      PutLookup(es[1..], key, value, other);
    }
  }

  /** In a dict without repeated keys, every entry is what its key looks up. */
  lemma {:induction false} LookupAt(es: seq<Entry>, i: nat)
    requires WellFormed(es) && i < |es|
    ensures Lookup(es, es[i].key) == Some(es[i].value)
  {
    if i > 0 {
      LookupAt(es[1..], i - 1);
    }
  }

  /** Writing a key keeps a dict free of duplicate keys. */
  lemma PutWellFormed(es: seq<Entry>, key: string, value: Value)
    requires WellFormed(es)
    ensures WellFormed(Put(es, key, value))
  {
    var r := Put(es, key, value);
    forall i, j | 0 <= i < j < |r| ensures r[i].key != r[j].key {
      assert Keys(r)[i] == r[i].key && Keys(r)[j] == r[j].key;
      if key in Keys(es) {
        assert Keys(es)[i] == es[i].key && Keys(es)[j] == es[j].key;
      } else if j < |es| {
        assert Keys(es)[i] == es[i].key && Keys(es)[j] == es[j].key;
      } else {
        assert Keys(es)[i] == es[i].key;
      }
    }
  }
}
