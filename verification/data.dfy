/** One AnnData dataset and the views `DataCollection` derives from it
    (app.py:18-53). Every view is a frame keyed by the dataset's cell names. */
module Data {
  import opened Wrappers
  import opened Seqs
  import opened OrderedDict
  import opened Frames

  /** A grouping variable needs more than one and fewer than this many categories. */
  const MaxLevels: nat := 16

  /** The pandas dtype of a covariate column: `category` with its category list, or
      anything else (numeric, boolean, string). */
  datatype ColumnKind = Categorical(categories: seq<string>) | Other

  /** One column of `obs`: its dtype and one value per cell. */
  datatype Covariate = Covariate(kind: ColumnKind, values: seq<Value>)

  /** A dense matrix as a sequence of rows. */
  type Matrix = seq<seq<real>>

  /** An AnnData object: `obs_names` (cells), `var_names` (genes), `X` (one row per
      cell, one column per gene), `obs` (covariate columns in order) and `obsm`
      (named embeddings, one row per cell). */
  datatype Dataset = Dataset(
    obsNames: seq<string>,
    varNames: seq<string>,
    x: Matrix,
    obs: seq<Entry<Covariate>>,
    obsm: seq<Entry<Matrix>>)

  /** The exceptions a lookup raises: a KeyError on the registry, the genes, the
      embeddings or the covariate columns. */
  datatype Error =
    | UnknownDataset(dataset: Option<string>)
    | UnknownGene(gene: string)
    | UnknownEmbedding(embedding: string)
    | UnknownCovariate(covariate: string)

  /** The shape the views rely on. AnnData itself keeps `X`, the `obs` columns and
      every `obsm` matrix aligned with `obs_names`. It only warns about repeated
      cell names or gene ids and accepts an embedding of any width, so the
      remaining conditions are assumptions of the model: unique cell names, gene
      ids, covariate names and embedding names, and at least two columns per
      embedding (with a one-column embedding, app.py:33 raises a ValueError when
      it builds the "x", "y" frame). */
  predicate Valid(d: Dataset) {
    && NoDup(d.obsNames)
    && NoDup(d.varNames)
    && |d.x| == |d.obsNames|
    && (forall i :: 0 <= i < |d.x| ==> |d.x[i]| == |d.varNames|)
    && UniqueKeys(d.obs)
    && (forall e :: e in d.obs ==> |e.value.values| == |d.obsNames|)
    && UniqueKeys(d.obsm)
    && (forall e :: e in d.obsm ==> |e.value| == |d.obsNames| && forall row :: row in e.value ==> |row| >= 2)
  }

  /** A frame with one row per cell of `d`, labelled by the cell names in order. */
  predicate KeyedByCells(d: Dataset, f: Frame) {
    f.index == d.obsNames && WellShaped(f)
  }

  /** `f` is the single "Expression" column holding gene `gene`'s value for every cell. */
  ghost predicate IsExpressionOf(d: Dataset, gene: string, f: Frame)
    requires Valid(d)
  {
    && KeyedByCells(d, f)
    && f.columns == ["Expression"]
    && gene in d.varNames
    && forall j, i :: 0 <= j < |d.varNames| && d.varNames[j] == gene && 0 <= i < |f.rows| ==>
         f.rows[i] == [Num(d.x[i][j])]
  }

  /** The (x, y) values of cell `i`: the first two columns of its embedding row. */
  function Coordinates(m: Matrix, i: nat): seq<Value>
    requires i < |m| && |m[i]| >= 2
  {
    [Num(m[i][0]), Num(m[i][1])]
  }

  /** `gene_counts_df`: the expression of one gene as a column named "Expression";
      a gene id that is not among `var_names` raises. */
  function ExpressionColumn(d: Dataset, gene: string): (r: Result<Frame, Error>)
    requires Valid(d)
    ensures r.Failure? <==> gene !in d.varNames
    ensures r.Failure? ==> r.error == UnknownGene(gene)
    ensures r.Success? ==> IsExpressionOf(d, gene, r.value)
  {
    match IndexOf(d.varNames, gene)
    case None => Failure(UnknownGene(gene))
    case Some(j) =>
      Success(Frame(d.obsNames, ["Expression"],
                    seq(|d.obsNames|, i requires 0 <= i < |d.obsNames| => [Num(d.x[i][j])])))
  }

  /** `gene_counts_dummy_df`: an "Expression" column of zeros, one per cell. */
  function ZeroColumn(d: Dataset): (r: Frame)
    ensures KeyedByCells(d, r)
    ensures r.columns == ["Expression"]
    ensures forall i :: 0 <= i < |r.rows| ==> r.rows[i] == [Num(0.0)]
  {
    Frame(d.obsNames, ["Expression"], seq(|d.obsNames|, _ => [Num(0.0)]))
  }

  /** A registered embedding has one row per cell and at least two columns. */
  lemma EmbeddingShape(d: Dataset, name: string, m: Matrix)
    requires Valid(d) && Entry(name, m) in d.obsm
    ensures |m| == |d.obsNames|
    ensures forall i :: 0 <= i < |m| ==> |m[i]| >= 2
  {
    forall i | 0 <= i < |m|
      ensures |m[i]| >= 2
    {
      assert m[i] in m;
    }
  }

  /** `embedding_df`: the first two columns of a named embedding as columns "x" and
      "y"; an embedding name that is not in `obsm` raises. */
  function EmbeddingCoordinates(d: Dataset, name: string): (r: Result<Frame, Error>)
    requires Valid(d)
    ensures r.Failure? <==> Get(d.obsm, name).None?
    ensures r.Failure? ==> r.error == UnknownEmbedding(name)
    ensures r.Success? ==>
              && KeyedByCells(d, r.value)
              && r.value.columns == ["x", "y"]
              && var m := Get(d.obsm, name).value;
                 forall i :: 0 <= i < |r.value.rows| ==> i < |m| && |m[i]| >= 2 && r.value.rows[i] == Coordinates(m, i)
  {
    match Get(d.obsm, name)
    case None => Failure(UnknownEmbedding(name))
    case Some(m) =>
      EmbeddingShape(d, name, m);
      var f := Frame(d.obsNames, ["x", "y"],
                     seq(|d.obsNames|, i requires 0 <= i < |d.obsNames| => Coordinates(m, i)));
      assert WellShaped(f);
      Success(f)
  }

  /** `grouping_df`: one covariate column, renamed "x"; a name that is not a column
      of `obs` raises. Any column is accepted, groupable or not. */
  function GroupingColumn(d: Dataset, name: string): (r: Result<Frame, Error>)
    requires Valid(d)
    ensures r.Failure? <==> Get(d.obs, name).None?
    ensures r.Failure? ==> r.error == UnknownCovariate(name)
    ensures r.Success? ==>
              && KeyedByCells(d, r.value)
              && r.value.columns == ["x"]
              && var c := Get(d.obs, name).value;
                 forall i :: 0 <= i < |r.value.rows| ==> i < |c.values| && r.value.rows[i] == [c.values[i]]
  {
    match Get(d.obs, name)
    case None => Failure(UnknownCovariate(name))
    case Some(c) =>
      assert |c.values| == |d.obsNames| by {
        assert Entry(name, c) in d.obs;
      }
      Success(Frame(d.obsNames, ["x"], seq(|d.obsNames|, i requires 0 <= i < |d.obsNames| => [c.values[i]])))
  }

  /** Every view of one dataset is labelled by the same cells in the same order, so
      the views can be joined row by row. */
  lemma ViewsShareCellIndex(d: Dataset, gene: string, emb: string, group: string)
    requires Valid(d)
    ensures ExpressionColumn(d, gene).Success? ==> ExpressionColumn(d, gene).value.index == d.obsNames
    ensures EmbeddingCoordinates(d, emb).Success? ==> EmbeddingCoordinates(d, emb).value.index == d.obsNames
    ensures GroupingColumn(d, group).Success? ==> GroupingColumn(d, group).value.index == d.obsNames
    ensures ZeroColumn(d).index == d.obsNames
  {
  }

  /** `available_embedding_keys`: every embedding name, in `obsm` order, unfiltered. */
  function EmbeddingKeys(d: Dataset): (r: seq<string>)
    requires Valid(d)
    ensures |r| == |d.obsm|
    ensures forall i :: 0 <= i < |r| ==> r[i] == d.obsm[i].key
    ensures forall k :: k in r <==> Get(d.obsm, k).Some?
    ensures NoDup(r)
  {
    Keys(d.obsm)
  }

  /** A categorical column with more than one and fewer than `MaxLevels` categories. */
  predicate Groupable(c: Covariate) {
    c.kind.Categorical? && 1 < |c.kind.categories| < MaxLevels
  }

  predicate GroupableEntry(e: Entry<Covariate>) {
    Groupable(e.value)
  }

  /** `available_group_vars`: the names of the groupable columns of `obs`, in column
      order. */
  function GroupVars(d: Dataset): (r: seq<string>)
    requires Valid(d)
    ensures forall v :: v in r <==> Get(d.obs, v).Some? && Groupable(Get(d.obs, v).value)
    ensures IsSubsequence(r, Keys(d.obs))
    ensures NoDup(r)
  {
    var kept := Filter(d.obs, GroupableEntry);
    GroupVarsSound(d);
    FilterIsSubsequence(d.obs, GroupableEntry);
    SubsequenceMap(Key, kept, d.obs);
    SubsequenceNoDup(Keys(kept), Keys(d.obs));
    Keys(kept)
  }

  /** Membership and order pin the grouping variables down: a list of covariate
      names in column order holding exactly the groupable ones is `GroupVars`. */
  lemma GroupVarsDetermined(d: Dataset, expected: seq<string>)
    requires Valid(d)
    requires IsSubsequence(expected, Keys(d.obs))
    requires forall v :: v in expected <==> Get(d.obs, v).Some? && Groupable(Get(d.obs, v).value)
    ensures GroupVars(d) == expected
  {
    SubsequenceDeterminedByMembers(GroupVars(d), expected, Keys(d.obs));
  }

  /** A name is kept by the groupability filter exactly when its column is groupable. */
  lemma GroupVarsSound(d: Dataset)
    requires Valid(d)
    ensures forall v :: v in Keys(Filter(d.obs, GroupableEntry)) <==> Get(d.obs, v).Some? && Groupable(Get(d.obs, v).value)
  {
    var kept := Filter(d.obs, GroupableEntry);
    forall v
      ensures v in Keys(kept) <==> Get(d.obs, v).Some? && Groupable(Get(d.obs, v).value)
    {
      if v in Keys(kept) {
        var j :| 0 <= j < |kept| && Keys(kept)[j] == v;
        GetEntry(d.obs, kept[j]);
      }
      if Get(d.obs, v).Some? && Groupable(Get(d.obs, v).value) {
        var e := Entry(v, Get(d.obs, v).value);
        var i :| 0 <= i < |d.obs| && d.obs[i] == e;
        assert GroupableEntry(d.obs[i]);
        var j :| 0 <= j < |kept| && kept[j] == e;
        assert Keys(kept)[j] == v;
      }
    }
  }
}
