/** `DataCollection` (app.py:12-56): the registry of datasets by name. Each of its
    view methods is `Lookup` followed by the dataset-level view in module Data. */
module Collection {
  import opened Wrappers
  import opened Seqs
  import opened OrderedDict
  import opened Data

  /** The registry `{name: AnnData}` in insertion order. */
  datatype DataCollection = DataCollection(data: seq<Entry<Dataset>>)

  /** Dataset names are unique and every dataset has AnnData's shape. */
  predicate ValidRegistry(c: DataCollection) {
    && UniqueKeys(c.data)
    && forall e :: e in c.data ==> Valid(e.value)
  }

  /** `self.data[dataset_name]`: the dataset registered under `name`. An unset
      name (Python `None`) or an unregistered one raises. */
  function Lookup(c: DataCollection, name: Option<string>): (r: Result<Dataset, Error>)
    ensures r.Success? <==> name.Some? && name.value in Keys(c.data)
    ensures r.Success? ==> Entry(name.value, r.value) in c.data
    ensures r.Success? && ValidRegistry(c) ==> Valid(r.value)
    ensures r.Failure? ==> r.error == UnknownDataset(name)
  {
    match name
    case None => Failure(UnknownDataset(name))
    case Some(n) =>
      match Get(c.data, n)
      case None => Failure(UnknownDataset(name))
      case Some(d) => Success(d)
  }

  /** `keys()`: the registered names in insertion order, each once. */
  function DatasetNames(c: DataCollection): (r: seq<string>)
    requires ValidRegistry(c)
    ensures |r| == |c.data|
    ensures forall i :: 0 <= i < |r| ==> r[i] == c.data[i].key
    ensures NoDup(r)
    ensures forall n :: n in r <==> Lookup(c, Some(n)).Success?
  {
    Keys(c.data)
  }
}
