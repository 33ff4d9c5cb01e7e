/** Insertion-ordered mappings from string keys, the shape of a Python `dict`, of a
    DataFrame's columns and of AnnData's `obsm`. A mapping is a sequence of entries;
    looking a key up returns the value of its first entry. */
module OrderedDict {
  import opened Wrappers
  import opened Seqs

  datatype Entry<V> = Entry(key: string, value: V)

  function Key<V>(e: Entry<V>): string {
    e.key
  }

  /** The keys in insertion order (Python's `list(d.keys())`). */
  function Keys<V>(d: seq<Entry<V>>): seq<string> {
    Map(Key, d)
  }

  /** Every key occurs once, as in a Python `dict`. */
  predicate UniqueKeys<V>(d: seq<Entry<V>>) {
    NoDup(Keys(d))
  }

  /** `d[k]`, with Python's KeyError as None. */
  function Get<V(==)>(d: seq<Entry<V>>, k: string): (r: Option<V>)
    ensures r.Some? <==> k in Keys(d)
    ensures r.Some? ==> Entry(k, r.value) in d
  {
    if d == [] then None
    else if d[0].key == k then Some(d[0].value)
    else (assert Keys(d) == [d[0].key] + Keys(d[1..]); Get(d[1..], k))
  }

  /** With unique keys, looking up the key of any entry returns that entry's value. */
  lemma GetEntry<V>(d: seq<Entry<V>>, e: Entry<V>)
    requires UniqueKeys(d) && e in d
    ensures Get(d, e.key) == Some(e.value)
  {
  }
}
