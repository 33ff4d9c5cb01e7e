# a290dash selection core in Dafny

A model of the data-derivation and selection logic of the a290dash single-cell
browser (`app.py`). The browser shows a 2D embedding scatter plot and a grouped
box plot of one gene's expression. It has dropdowns for the dataset, the gene
(searched by substring), the embedding and one grouping covariate.

The model has no Dash, pandas or plotly in it. What is left is pure functions over
finite sequences:

- `Data`: one AnnData dataset. It holds cell names (`obs_names`), gene ids
  (`var_names`), an expression matrix `X`, covariate columns (`obs`, each
  categorical with a category list, or other) and named embeddings (`obsm`). The
  module also derives the four views `DataCollection` builds: the gene's
  "Expression" column, the all-zero placeholder column, the (x, y) embedding
  coordinates and the grouping column. Each view is a `Frame` labelled by the
  dataset's cell names, in cell order.
- `Collection`: the registry `{name: dataset}`. Each `DataCollection` method is
  `Lookup` (`self.data[dataset_name]`) followed by the dataset-level view.
  `available_gene_ids` is `Lookup(...).value.varNames`.
- `Callbacks`: the bodies of the five callbacks.
  - `update_gene_options`: substring search over the gene ids, or no update.
  - `update_embedding_options`: all embedding names.
  - `update_group_options`: categorical covariates with 2 to 15 categories.
  - `update_umap`, `update_boxplot`: pick between the empty-state plot and a
    plot description. The description records the joined rows, the colour
    source and the y-axis source.
- Supporting modules: `Wrappers` (Option, Result), `Seqs` (subsequences and
  filtering), `Text` (Python's `p in s` on strings), `OrderedDict`
  (insertion-ordered dicts as entry sequences) and `Frames` (frames and pandas'
  left `join`).

Some conventions of the model:

- An unset Dash value is `None`, so dropdown values are `Option<string>`.
- Python's `not v` is `Blank` (None or the empty string).
- A raised `KeyError` is an `Error` value (`UnknownDataset`, `UnknownGene`,
  `UnknownEmbedding`, `UnknownCovariate`).
- A callback's result is `PreventUpdate`, `Output(value)` or `Raised(error)`.
- Numbers (`real`) are opaque; the model never computes with them.

Behaviour of `app.py` that the model keeps as written:

- Gene search is case-sensitive (`search_value in o`).
- An empty or unset search leaves the gene options unchanged (`PreventUpdate`).
- A covariate is groupable when it has more than 1 and fewer than 16 categories.
- Only pandas `category` columns are groupable; boolean columns are not.
- The box plot uses one grouping variable.
- Nothing resets the gene, embedding or grouping selection when the dataset changes.

## Model

| member | source | states |
|---|---|---|
| Seqs.Filter | app.py:95 | The comprehension keeps exactly the elements that pass its test: every kept element comes from the input and passes, and every input element that passes is kept. |
| Seqs.FilterIsSubsequence | app.py:95 | The comprehension keeps input order: its result is a subsequence of its input. |
| Text.ContainsIffOccurs | app.py:95 | `search_value in o` holds exactly when the search text occurs at some offset of the gene id. |
| OrderedDict.Get | app.py:19 | A dict lookup succeeds exactly when the key is present, and then returns a value stored under that key. |
| OrderedDict.GetEntry | app.py:19 | With unique keys, looking up any entry's key returns that entry's value. |
| Frames.Join | app.py:116 | `join` is a left join. It keeps the left frame's labels and rows in order and appends the right frame's columns. Each row gets the right frame's row for the same label (the first one, if repeated), or NaN when the label is absent. |
| Frames.JoinOnSharedIndex | app.py:116 | When both frames share one duplicate-free cell index, row i of the join is row i of the left frame next to row i of the right: no row is lost, added, reordered or filled with NaN. |
| Data.ExpressionColumn | app.py:18-21 | Raises exactly when the gene id is not a gene of the dataset. Otherwise it gives one "Expression" row per cell, in cell order, holding that gene's value for that cell. |
| Data.ZeroColumn | app.py:23-26 | One "Expression" row per cell, in cell order, and every entry is 0. |
| Data.EmbeddingCoordinates | app.py:28-34 | Raises exactly when the embedding name is unknown. Otherwise it gives exactly two columns "x", "y" and one row per cell, in cell order, holding that cell's first two embedding coordinates. |
| Data.GroupingColumn | app.py:36-39 | Raises exactly when the covariate is not a column. Otherwise it gives one column "x" holding each cell's covariate value, in cell order. |
| Data.ViewsShareCellIndex | app.py:18-39 | Every view of a dataset is labelled by the dataset's cell names in the same order. |
| Data.EmbeddingKeys | app.py:44-46 | Every embedding name, each once, in `obsm` order, and nothing else: a name is listed exactly when the embedding exists. |
| Data.GroupVars | app.py:48-53 | A name is listed exactly when its column is categorical with more than 1 and fewer than 16 categories. The list follows column order and has no duplicates. |
| Data.GroupVarsDetermined | app.py:50-53 | Membership and order fix the grouping options completely. Any list of covariate names in column order that holds exactly the groupable names equals them. |
| Data.GroupVarsSound | app.py:50-52 | The column mask keeps a column name exactly when that column is groupable. |
| Collection.Lookup | app.py:16-19 | Resolving a dataset name succeeds exactly for a registered name, and returns the dataset registered under it. An unset or unknown name raises. |
| Collection.DatasetNames | app.py:55-56 | The registry's names, each once, in insertion order; a name is listed exactly when it resolves. |
| Callbacks.UpdateGeneOptions | app.py:91-95 | Blank search text gives no update, never a list. Otherwise the options are exactly the dataset's gene ids containing the text, in `var_names` order, with no duplicates. An unknown dataset raises. |
| Callbacks.GeneOptionsAreOccurrences | app.py:94-95 | The gene options are exactly the gene ids in which the search text occurs at some offset. |
| Callbacks.GeneOptionsDetermined | app.py:94-95 | Membership and order fix the gene options completely. Any list of gene ids in `var_names` order that holds exactly the matching ids equals the options. |
| Callbacks.GeneSearchIsCaseSensitive | app.py:92-95 | On a registry with gene "Gata1": the search "gata" finds nothing, "Gata" finds "Gata1", and "" gives no update. |
| Callbacks.UpdateEmbeddingOptions | app.py:99-100 | Never "no update". The options are all embedding names of the dataset, unfiltered, in `obsm` order, each once. An unknown dataset raises. |
| Callbacks.UpdateGroupOptions | app.py:104-105 | Never "no update". The options are exactly the groupable covariates, in column order, each once. An unknown dataset raises. |
| Callbacks.UpdateUmap | app.py:111-117 | Gives the empty-state plot exactly when the dataset or the embedding is unset. Otherwise a lookup failure raises, in the order dataset, embedding, gene. If nothing fails, the result is a scatter with one row per cell, in cell order: the cell's two coordinates, plus the gene's expression when a gene is set. It is coloured by "Expression" exactly when a gene is set. |
| Callbacks.BoxData | app.py:130-134 | The grouping column is joined with the gene's expression when a gene is set, and with the all-zero column when not. Either way there is one row per cell: the cell's group label and its expression value. |
| Callbacks.UpdateBoxplot | app.py:127-137 | Gives the empty-state plot unless the dataset, gene and group variable are all set. Otherwise a lookup failure raises, in the order dataset, covariate, gene. If nothing fails, the result is a box plot titled by the group variable. Its y axis is always the selected gene's expression, never the zero placeholder. |

## Left out

- Dash app construction, layout, callback registration and `APP.run` (app.py:61-74, 88-90, 97-98, 102-103, 107-110, 123-126, 139-140). This is UI wiring; only the callback bodies are modelled.
- Loading `data/data.h5ad` with `anndata.read_h5ad` (app.py:59). This is file I/O. The registry is a parameter (`DataCollection`). `Data.Valid` states the alignment AnnData guarantees (`X`, `obs` and every `obsm` matrix have one row per cell) together with the model's own assumptions listed under `Data.Valid` below.
- Plotly figure construction and axis styling (`px.scatter`, `px.box`, `update_xaxes`, `update_yaxes`). These are rendering calls. A figure is the `Plot` datatype: the empty state, a scatter of "x" against "y" with an optional colour column, or a box plot of "Expression" grouped by "x" with its x-axis title.
- Densifying a sparse embedding (app.py:31-32). This is a foreign library call, and scipy sparse matrices have no `to_dense` method. Embeddings are dense row sequences.
- Floating-point expression values and coordinates. These are opaque `real`s with no arithmetic.
- `search_decorator` (app.py:76-84). It is never applied. It performs the same blank check as `UpdateGeneOptions`, after which it hands the fetched options to the wrapped function.
- Frames.Join: when a label repeats in the right frame's index, it uses the first matching row. It does not model the row expansion pandas performs in that case. Derived views never repeat a label, because `Data.Valid` requires unique cell names.
- Frames.Join: requires the two frames' column names to be disjoint. pandas raises a ValueError on overlapping columns when no suffix is given. app.py never reaches that case, because it always joins "Expression" onto "x", "y" or onto "x".
- Data.Valid: it requires unique cell names, gene ids, covariate names and embedding names, and at least two columns per embedding. AnnData does not enforce these: it only warns about repeated names and accepts an embedding of any width. The source relies on them without checking. The model therefore does not cover a one-column embedding, for which app.py:33 raises a ValueError, nor duplicate names.
