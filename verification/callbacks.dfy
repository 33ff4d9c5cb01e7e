/** The decision logic of the five Dash callbacks (app.py:88-137): which options a
    dropdown receives and which plot each graph shows, for every combination of
    set, unset and unknown inputs. */
module Callbacks {
  import opened Wrappers
  import opened Seqs
  import opened OrderedDict
  import opened Text
  import opened Frames
  import opened Data
  import opened Collection

  /** What a callback does with its output: leave it as it is (Dash's
      PreventUpdate), set it, or fail with the exception its body raised. */
  datatype Outcome<T> = PreventUpdate | Output(value: T) | Raised(error: Error)

  /** Where a box plot's "Expression" values come from. */
  datatype ExpressionSource = GeneExpression(gene: string) | ZeroPlaceholder

  /** A figure description in place of a plotly figure. `EmptyState` is the blank
      scatter a callback returns when an input is missing; `Scatter` plots columns
      "x" and "y" coloured by `colour`; `Box` plots "Expression" grouped by "x",
      with `xTitle` as the x-axis title. */
  datatype Plot =
    | EmptyState
    | Scatter(data: Frame, colour: Option<string>)
    | Box(data: Frame, xTitle: string, y: ExpressionSource)

  /** Python's `not v` for a dropdown value: unset (None) or the empty string. */
  predicate Blank(v: Option<string>) {
    v.None? || v.value == ""
  }

  function MatchesSearch(search: string): string -> bool {
    g => Contains(g, search)
  }

  /** `update_gene_options`: no update while the search text is blank; otherwise the
      gene ids of the dataset that contain the search text, case-sensitively, in
      `var_names` order. */
  function UpdateGeneOptions(c: DataCollection, name: Option<string>, search: Option<string>): (r: Outcome<seq<string>>)
    requires ValidRegistry(c)
    ensures r.PreventUpdate? <==> Blank(search)
    ensures r.Raised? <==> !Blank(search) && Lookup(c, name).Failure?
    ensures r.Raised? ==> r.error == UnknownDataset(name)
    ensures r.Output? ==>
              var genes := Lookup(c, name).value.varNames;
              && (forall g :: g in r.value <==> g in genes && Contains(g, search.value))
              && IsSubsequence(r.value, genes)
              && NoDup(r.value)
  {
    if Blank(search) then PreventUpdate
    else
      match Lookup(c, name)
      case Failure(e) => Raised(e)
      case Success(d) =>
        var found := Filter(d.varNames, MatchesSearch(search.value));
        FilterIsSubsequence(d.varNames, MatchesSearch(search.value));
        SubsequenceNoDup(found, d.varNames);
        Output(found)
  }

  /** The gene options are exactly the gene ids in which the search text occurs at
      some offset, the reference definition of a substring. */
  lemma GeneOptionsAreOccurrences(c: DataCollection, name: Option<string>, search: Option<string>)
    requires ValidRegistry(c)
    requires UpdateGeneOptions(c, name, search).Output?
    ensures forall g :: g in UpdateGeneOptions(c, name, search).value <==>
                        g in Lookup(c, name).value.varNames && exists i :: OccursAt(g, search.value, i)
  {
    forall g {
      ContainsIffOccurs(g, search.value);
    }
  }

  /** Membership and order pin the gene options down: a list of gene ids in
      `var_names` order holding exactly the matching ids is the options list. */
  lemma GeneOptionsDetermined(c: DataCollection, name: Option<string>, search: Option<string>, expected: seq<string>)
    requires ValidRegistry(c)
    requires UpdateGeneOptions(c, name, search).Output?
    requires IsSubsequence(expected, Lookup(c, name).value.varNames)
    requires forall g :: g in expected <==> g in Lookup(c, name).value.varNames && Contains(g, search.value)
    ensures UpdateGeneOptions(c, name, search).value == expected
  {
    var genes := Lookup(c, name).value.varNames;
    SubsequenceDeterminedByMembers(UpdateGeneOptions(c, name, search).value, expected, genes);
  }

  /** A registry shaped like the one app.py loads: one dataset with one cell and
      the genes "Gata1" and "Actb". */
  const SmallRegistry: DataCollection :=
    DataCollection([Entry("SmartSeq3GLAST", Dataset(["cell1"], ["Gata1", "Actb"], [[3.0, 0.0]], [], []))])

  /** The character comparisons behind the example below. */
  lemma ExampleMatches()
    ensures Contains("Gata1", "Gata") && !Contains("Gata1", "gata")
    ensures !Contains("Actb", "Gata") && !Contains("Actb", "gata")
  {
    assert "Gata1"[..4] == "Gata";
    LongerNeverContained("ta1", "gata");
    assert "Gata1"[1..] == "ata1" && "ata1"[1..] == "ta1";
    assert "ata1"[..4][0] != "gata"[0];
    assert "Gata1"[..4][0] != "gata"[0];
    assert "Actb"[1..] == "ctb";
    LongerNeverContained("ctb", "gata");
    LongerNeverContained("ctb", "Gata");
    assert "Actb"[..4][0] != "gata"[0] && "Actb"[..4][0] != "Gata"[0];
  }

  /** The example registry has AnnData's shape and resolves its one name. */
  lemma SmallRegistryResolves()
    ensures ValidRegistry(SmallRegistry)
    ensures Lookup(SmallRegistry, Some("SmartSeq3GLAST")) == Success(SmallRegistry.data[0].value)
  {
    var d := SmallRegistry.data[0].value;
    assert Keys(SmallRegistry.data) == ["SmartSeq3GLAST"];
    assert Keys(d.obs) == [] && Keys(d.obsm) == [];
  }

  /** The gene search compares characters exactly: "gata" finds nothing, "Gata"
      finds "Gata1", and an empty search leaves the options as they are. */
  lemma GeneSearchIsCaseSensitive()
    ensures ValidRegistry(SmallRegistry)
    ensures UpdateGeneOptions(SmallRegistry, Some("SmartSeq3GLAST"), Some("gata")) == Output([])
    ensures UpdateGeneOptions(SmallRegistry, Some("SmartSeq3GLAST"), Some("Gata")) == Output(["Gata1"])
    ensures UpdateGeneOptions(SmallRegistry, Some("SmartSeq3GLAST"), Some("")) == PreventUpdate
  {
    SmallRegistryResolves();
    ExampleMatches();
    var genes: seq<string> := ["Gata1", "Actb"];
    assert SmallRegistry.data[0].value.varNames == genes;
    assert genes[1..] == ["Actb"] && genes[1..][1..] == [];
    assert Filter(genes, MatchesSearch("gata")) == [];
    assert Filter(genes, MatchesSearch("Gata")) == ["Gata1"];
  }

  /** `update_embedding_options`: every embedding name of the dataset. */
  function UpdateEmbeddingOptions(c: DataCollection, name: Option<string>): (r: Outcome<seq<string>>)
    requires ValidRegistry(c)
    ensures !r.PreventUpdate?
    ensures r.Raised? <==> Lookup(c, name).Failure?
    ensures r.Raised? ==> r.error == UnknownDataset(name)
    ensures r.Output? ==>
              var d := Lookup(c, name).value;
              && |r.value| == |d.obsm|
              && (forall i :: 0 <= i < |r.value| ==> r.value[i] == d.obsm[i].key)
              && (forall k :: k in r.value <==> Get(d.obsm, k).Some?)
              && NoDup(r.value)
  {
    match Lookup(c, name)
    case Failure(e) => Raised(e)
    case Success(d) => Output(EmbeddingKeys(d))
  }

  /** `update_group_options`: the dataset's groupable covariates, in column order. */
  function UpdateGroupOptions(c: DataCollection, name: Option<string>): (r: Outcome<seq<string>>)
    requires ValidRegistry(c)
    ensures !r.PreventUpdate?
    ensures r.Raised? <==> Lookup(c, name).Failure?
    ensures r.Raised? ==> r.error == UnknownDataset(name)
    ensures r.Output? ==>
              var d := Lookup(c, name).value;
              && (forall v :: v in r.value <==> Get(d.obs, v).Some? && Groupable(Get(d.obs, v).value))
              && IsSubsequence(r.value, Keys(d.obs))
              && NoDup(r.value)
  {
    match Lookup(c, name)
    case Failure(e) => Raised(e)
    case Success(d) => Output(GroupVars(d))
  }

  /** `p` is the embedding scatter of `d`: one row per cell in cell order, holding
      the cell's first two embedding coordinates and, when a gene is selected, the
      gene's expression, which then also colours the points. */
  ghost predicate IsEmbeddingScatter(d: Dataset, emb: string, gene: Option<string>, p: Plot)
    requires Valid(d) && Get(d.obsm, emb).Some?
  {
    var m := Get(d.obsm, emb).value;
    && p.Scatter?
    && p.colour == (if Blank(gene) then None else Some("Expression"))
    && KeyedByCells(d, p.data)
    && p.data.columns == ["x", "y"] + (if Blank(gene) then [] else ["Expression"])
    && (forall i :: 0 <= i < |p.data.rows| ==> i < |m| && |m[i]| >= 2 && p.data.rows[i][..2] == Coordinates(m, i))
    && (!Blank(gene) ==>
          forall j, i :: 0 <= j < |d.varNames| && d.varNames[j] == gene.value && 0 <= i < |p.data.rows| ==>
            p.data.rows[i][2..] == [Num(d.x[i][j])])
  }

  /** What `update_umap` produces once dataset and embedding are both set: the
      first failing lookup raises (dataset, then embedding, then gene), otherwise
      the embedding scatter. */
  ghost predicate UmapOutcome(c: DataCollection, name: string, gene: Option<string>, emb: string, r: Outcome<Plot>)
    requires ValidRegistry(c)
  {
    match Lookup(c, Some(name))
    case Failure(_) => r == Raised(UnknownDataset(Some(name)))
    case Success(d) =>
      if Get(d.obsm, emb).None? then r == Raised(UnknownEmbedding(emb))
      else if !Blank(gene) && gene.value !in d.varNames then r == Raised(UnknownGene(gene.value))
      else r.Output? && IsEmbeddingScatter(d, emb, gene, r.value)
  }

  /** `update_umap`: the empty-state plot exactly when the dataset or the embedding
      is unset; otherwise the embedding coordinates, joined with the selected
      gene's expression on the cell names and coloured by it. */
  function UpdateUmap(c: DataCollection, name: Option<string>, gene: Option<string>, emb: Option<string>): (r: Outcome<Plot>)
    requires ValidRegistry(c)
    ensures !r.PreventUpdate?
    ensures r == Output(EmptyState) <==> Blank(name) || Blank(emb)
    ensures !Blank(name) && !Blank(emb) ==> UmapOutcome(c, name.value, gene, emb.value, r)
  {
    if Blank(name) || Blank(emb) then Output(EmptyState)
    else
      match Lookup(c, name)
      case Failure(e) => Raised(e)
      case Success(d) =>
        match EmbeddingCoordinates(d, emb.value)
        case Failure(e) => Raised(e)
        case Success(coords) =>
          if Blank(gene) then Output(Scatter(coords, None))
          else
            match ExpressionColumn(d, gene.value)
            case Failure(e) => Raised(e)
            case Success(expr) =>
              JoinOnSharedIndex(coords, expr);
              Output(Scatter(Join(coords, expr), Some("Expression")))
  }

  /** `f` is the box-plot frame for covariate `group`: one row per cell in cell
      order, holding the cell's group label and its "Expression" value from `src`. */
  ghost predicate IsGroupedExpression(d: Dataset, group: string, src: ExpressionSource, f: Frame)
    requires Valid(d) && Get(d.obs, group).Some?
  {
    var c := Get(d.obs, group).value;
    && KeyedByCells(d, f)
    && f.columns == ["x", "Expression"]
    && (forall i :: 0 <= i < |f.rows| ==> i < |c.values| && f.rows[i][0] == c.values[i])
    && (src.ZeroPlaceholder? ==> forall i :: 0 <= i < |f.rows| ==> f.rows[i][1] == Num(0.0))
    && (src.GeneExpression? ==>
          && src.gene in d.varNames
          && forall j, i :: 0 <= j < |d.varNames| && d.varNames[j] == src.gene && 0 <= i < |f.rows| ==>
               f.rows[i][1] == Num(d.x[i][j]))
  }

  /** The data-frame steps of `update_boxplot`: the grouping column joined with the
      gene's expression when a gene is set, and with the all-zero column when not. */
  function BoxData(d: Dataset, group: string, gene: Option<string>): (r: Result<(Frame, ExpressionSource), Error>)
    requires Valid(d)
    ensures r.Failure? <==> Get(d.obs, group).None? || (!Blank(gene) && gene.value !in d.varNames)
    ensures r.Failure? ==>
              r.error == if Get(d.obs, group).None? then UnknownCovariate(group) else UnknownGene(gene.value)
    ensures r.Success? ==>
              && r.value.1 == (if Blank(gene) then ZeroPlaceholder else GeneExpression(gene.value))
              && IsGroupedExpression(d, group, r.value.1, r.value.0)
  {
    var groups :- GroupingColumn(d, group);
    if !Blank(gene) then
      var expr :- ExpressionColumn(d, gene.value);
      JoinOnSharedIndex(groups, expr);
      Success((Join(groups, expr), GeneExpression(gene.value)))
    else
      var zeros := ZeroColumn(d);
      JoinOnSharedIndex(groups, zeros);
      Success((Join(groups, zeros), ZeroPlaceholder))
  }

  /** What `update_boxplot` produces once dataset, gene and group variable are all
      set: the first failing lookup raises (dataset, then covariate, then gene),
      otherwise a box plot of the selected gene, never of the zero placeholder. */
  ghost predicate BoxplotOutcome(c: DataCollection, name: string, gene: string, group: string, r: Outcome<Plot>)
    requires ValidRegistry(c)
  {
    match Lookup(c, Some(name))
    case Failure(_) => r == Raised(UnknownDataset(Some(name)))
    case Success(d) =>
      if Get(d.obs, group).None? then r == Raised(UnknownCovariate(group))
      else if gene !in d.varNames then r == Raised(UnknownGene(gene))
      else
        && r.Output? && r.value.Box?
        && r.value.xTitle == group
        && r.value.y == GeneExpression(gene)
        && IsGroupedExpression(d, group, r.value.y, r.value.data)
  }

  /** `update_boxplot`: the empty-state plot unless dataset, gene and group variable
      are all set; otherwise the selected gene's expression per group. */
  function UpdateBoxplot(c: DataCollection, name: Option<string>, gene: Option<string>, group: Option<string>): (r: Outcome<Plot>)
    requires ValidRegistry(c)
    ensures !r.PreventUpdate?
    ensures r == Output(EmptyState) <==> Blank(name) || Blank(gene) || Blank(group)
    ensures !Blank(name) && !Blank(gene) && !Blank(group) ==> BoxplotOutcome(c, name.value, gene.value, group.value, r)
  {
    if Blank(name) || Blank(gene) || Blank(group) then Output(EmptyState)
    else
      match Lookup(c, name)
      case Failure(e) => Raised(e)
      case Success(d) =>
        match BoxData(d, group.value, gene)
        case Failure(e) => Raised(e)
        case Success(boxed) => Output(Box(boxed.0, group.value, boxed.1))
  }
}
