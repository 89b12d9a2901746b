# Brain Image Library inventory report: the record pipeline

The inventory report is a small dashboard. It fetches the daily JSON inventory of the Brain Image
Library and turns the list of datasets into several views:

- a table of all datasets, sorted by number of files;
- a list of collections to choose from;
- a table of the chosen collection;
- a pie chart of that collection's file counts, with a legend split into columns of 25 entries.

This project models what happens to the records between decoding and drawing. It has five modules:

- `CollectionCode` (`CollectionCode.dfy`) models `extract_collection`. The regular-expression
  search `/bil/data/([a-f0-9]{2})/` is written as a scan over start positions. Each position is
  compared with the fixed 13-character shape, and the leftmost match wins.
- `InventoryReport` (`InventoryReport.dfy`) holds the records and the steps that work on them:
  - the two derived columns;
  - the sort by `number_of_files`;
  - the list of collection codes;
  - the collection filter;
  - the pie input and the legend's column count;
  - `BuildReport`, which combines all of these for one run, or gives the single error message.
- `Sequences` (`Sequences.dfy`) holds the data-frame operations those steps use: a map (a column
  computed with `apply`), a boolean-mask filter, a descending sort and a sum.
- `StringOrder` (`StringOrder.dfy`) is Python's `<` on `str`, which `sorted` uses.
- `Wrappers` (`Wrappers.dfy`) holds `Option` and `Result`.

All of it is pure functions and lemmas. The source changes the data frame in place twice, at
lines 37 and 40, when it adds the columns `collection` and `pretty_size`. Each of these is a map
over the rows, so the model writes both together as `DeriveColumns`: one derived `Row` per input
`Item`.

A few things about the source shape the model:

- `sort_values` uses quicksort by default, and quicksort is not stable. So the contracts for the
  preview order and the pie order promise a permutation with non-increasing `number_of_files`,
  and nothing about the order of ties. `SortDesc` happens to be an insertion sort, but nothing
  depends on that.
- The collection table filters `df`, not `df_sorted`. So `FilteredRows` is stated as a
  subsequence of the input rows, in input order.
- pandas treats a missing value as equal to nothing in `df["collection"] == selected_collection`.
  So `InCollection` never holds for a row without a collection. It also never holds for a `None`
  selection, which is what `st.selectbox` returns when there are no options.
- Two properties one might expect of the report do not hold:
  - The table sort is not guaranteed stable (see above).
  - "Nothing is shown after an error" does not hold either. Both tables are drawn (lines 55
    and 73) before the pie chart. When the pie has no wedge, drawing it with a legend of
    `ncol=0` columns (lines 81-102) raises, and the error message follows the tables. The model
    has a separate outcome `PlotFailed` for this.
- An empty inventory fails before anything is drawn: `pd.DataFrame([])` has no columns, so
  `df["bildirectory"]` at line 37 raises `KeyError`. The message ends in `'bildirectory'`.

Three external things are parameters of the model:

- The fetched and decoded JSON is a `Result<seq<Item>>`.
- `humanize.naturalsize(..., binary=True)` is a `Formatter`, a function `nat -> string` that the
  model does not interpret.
- The widget's choice is a `Chooser`, a function from the option list to `Option<string>`.
  `PicksAnOption` states how `st.selectbox` behaves: `None` for no options, and otherwise one of
  the options. Only `SelectedTableShown` assumes it.
- The text of the exception raised while drawing an empty pie is the parameter `plotError`.

## Model

| member | source | states |
|---|---|---|
| CollectionCode.FindFrom | streamlit_app.py:34 | the position found is a match at or after the start with no match between the start and it; no position is found only if nothing at or after the start matches |
| CollectionCode.ExtractCollection | streamlit_app.py:33-35 | a returned code is two characters from `0-9a-f`; the result is `None` exactly when the pattern matches nowhere; when it matches, the result is the group of the leftmost match |
| CollectionCode.CanonicalPath | streamlit_app.py:34 | `/bil/data/<code>/<anything>` yields that code |
| CollectionCode.FirstRootDecides | streamlit_app.py:34 | if the first `/bil/data/` in a path is followed by two lower-case hex digits and `/`, those two digits are the result, whatever follows |
| CollectionCode.ExampleAccepted | streamlit_app.py:34-35 | `/bil/data/3f/x` yields `3f` |
| CollectionCode.ExampleLeftmost | streamlit_app.py:34-35 | `/bil/data/ab/bil/data/cd/` yields `ab`: the leftmost match wins |
| CollectionCode.ExampleOtherPath | streamlit_app.py:34-35 | `/other/path` yields `None` |
| CollectionCode.ExampleUpperCase | streamlit_app.py:34-35 | `/bil/data/3F/x` yields `None`: upper-case digits do not match |
| CollectionCode.ExampleThreeDigits | streamlit_app.py:34-35 | `/bil/data/3fa/x` yields `None`: after two digits a `/` must follow |
| InventoryReport.DeriveRow | streamlit_app.py:37-40 | the input fields are kept unchanged; the collection is the extracted code, which is a valid code when present; the readable size is absent exactly when the size is absent, and otherwise is the formatter's text for that size |
| InventoryReport.DeriveColumns | streamlit_app.py:37-40 | one row per item, same count; dropping the derived columns gives back the input exactly; every row's derived columns agree with its own fields |
| Sequences.SortDesc | streamlit_app.py:43 | the result is a permutation of the input with non-increasing key |
| InventoryReport.SortedRows | streamlit_app.py:43 | `df_sorted` is a permutation of `df` with `number_of_files` non-increasing |
| InventoryReport.Preview | streamlit_app.py:43-51 | the full table has one entry per row, holds exactly the displayed columns of the input rows (as a multiset), and is non-increasing in number of files |
| StringOrder.LessTransitive | streamlit_app.py:61 | string order is transitive |
| StringOrder.LessTotal | streamlit_app.py:61 | two different strings are ordered one way or the other |
| StringOrder.InsertAscending | streamlit_app.py:61 | inserting into a strictly ascending list keeps it strictly ascending; its elements become the old ones plus the new one |
| StringOrder.StrictlyAscendingUnique | streamlit_app.py:61 | two strictly ascending lists with the same elements are equal, so the sorted list of unique values is determined by the set of codes |
| InventoryReport.CollectionOptions | streamlit_app.py:61 | the option list is strictly ascending (sorted, no duplicates) and holds exactly the non-null codes present in the rows |
| Sequences.Filter | streamlit_app.py:66 | the kept elements satisfy the mask; each element that satisfies it keeps its multiplicity and each that does not is dropped; the result is a subsequence of the input |
| InventoryReport.FilteredRows | streamlit_app.py:66 | exactly the rows whose collection equals the selection, with their multiplicities, in input order (a subsequence of `df`) |
| InventoryReport.FilteredTable | streamlit_app.py:66-71 | every entry has the selected collection; every row of that collection is shown; it has one entry per filtered row, in input order (a subsequence of the input rows' columns) |
| InventoryReport.PieInput | streamlit_app.py:77-78 | every wedge has a positive count; counts are non-increasing; as a multiset, the wedges are the rows of the selected collection with at least one file |
| InventoryReport.PieInputComplete | streamlit_app.py:77-78 | every row of the selected collection with files has its wedge |
| InventoryReport.PieInputSound | streamlit_app.py:77-78 | every wedge comes from a row of the selected collection with files |
| InventoryReport.PieTotal | streamlit_app.py:77-78 | the wedges' counts add up to the collection's total number of files: dropping zeros changes no total |
| InventoryReport.Labels | streamlit_app.py:91 | one legend label per wedge, the wedge's Brain ID, in wedge order |
| InventoryReport.LegendColumns | streamlit_app.py:92 | for n ≥ 1 labels the column count is ceil(n/25): `25*(cols-1) < n <= 25*cols`, so no column holds more than 25; for n = 0 it is 0 |
| InventoryReport.BuildReport | streamlit_app.py:26-107 | a run shows only the error message exactly when fetching or decoding failed or the inventory is empty. The message is `Failed to load or process data: ` followed by the error, or by `'bildirectory'` for an empty inventory. A run whose pie fails to draw shows the tables and then the message with the plotting error. A fully loaded run has at least one wedge and one legend column |
| InventoryReport.OptionHasRows | streamlit_app.py:61-66 | every offered collection has a non-empty table |
| InventoryReport.UnmatchedRow | streamlit_app.py:33-66 | a record whose path does not match keeps an empty collection cell in the full table and is in no collection's table |
| InventoryReport.OptionsFromPaths | streamlit_app.py:33-61 | every option is a two-digit lower-case hex code, and a code is offered exactly when the pattern extracts it from some item's directory |
| InventoryReport.LoadedReport | streamlit_app.py:30-107 | a run over a non-empty inventory shows the following: <br>• the full table has one entry per item, is a permutation of the items' displayed columns and is sorted by files<br>• the options are strictly ascending valid codes, exactly the codes found in the items' paths<br>• the selection is the chooser's pick from those options<br>• every filtered entry has the selected collection<br>• the run ends in the plotting error exactly when the pie input is empty<br>• otherwise the wedges are positive and non-increasing, and the legend column count is computed from the number of wedges |
| InventoryReport.NoCollectionNoPie | streamlit_app.py:33-107 | when no directory of a non-empty inventory matches the pattern, there are no options and the filtered table is empty; the tables are drawn and the run ends in the plotting error |
| InventoryReport.SelectedTableShown | streamlit_app.py:33-73 | with a selectbox-like chooser and at least one matching directory, the run offers options, selects one of them and shows a non-empty table for it |
| InventoryReport.ScenarioDerive | streamlit_app.py:37-40 | items A1 (`/bil/data/3f/x`, 10 files, a size) and A2 (`/bil/data/3f/y`, 0 files, no size) get collection `3f`; only A1 gets a readable size |
| InventoryReport.ScenarioSorted | streamlit_app.py:43 | A1 comes before A2 |
| InventoryReport.ScenarioOptions | streamlit_app.py:61 | the only option is `3f` |
| InventoryReport.ScenarioTables | streamlit_app.py:43-71 | both the full table and the `3f` table show A1 and then A2, with their collection, files and readable size |
| InventoryReport.ScenarioFiltered | streamlit_app.py:66 | the `3f` table keeps both records |
| InventoryReport.ScenarioPie | streamlit_app.py:77-78 | the pie has the single wedge A1 with 10 files |
| InventoryReport.Scenario | streamlit_app.py:26-104 | the whole run for A1 and A2, with the first option selected, gives exactly that full table, the option `3f`, that filtered table, one wedge and one legend column |

## Left out

- The HTTP request and JSON decoding (streamlit_app.py:27-30) are network I/O and foreign
  libraries. The model receives their outcome as a `Result`. It does not model a JSON object
  whose fields are missing or have the wrong type. In the source either one raises inside the
  `try` block.
- All Streamlit output is user interface: title, text, caption, subheaders, `st.dataframe`,
  `st.pyplot` and `st.error` (lines 10-24, 54-55, 60, 63, 73, 76, 104, 107). The renaming of
  columns to display headers (lines 46-51, 66-71) is also left out. Only which columns are shown
  is modelled.
- Which option `st.selectbox` picks (line 62), by default or by user action, is widget
  behaviour that the code does not state. The choice is a parameter.
- The text produced by `humanize.naturalsize(..., binary=True)` (line 40) is a foreign call doing
  floating-point formatting. Only "present exactly when the size is present" is modelled.
- The report date (line 19) reads the clock.
- Drawing the pie chart and legend (lines 80-102) is not modelled: wedge angles and the
  `autopct` percentages rounded to one decimal are floating point and plotting. Only the wedge
  data and their total (`PieTotal`) are modelled. So is the fact that an empty pie ends the run
  in an error. The text of that error is left to the plotting library.
- The order of rows with equal `number_of_files` is not modelled in either sort (lines 43 and
  78). pandas' default quicksort does not promise it.
- Besides the empty inventory and the empty pie, no step after decoding raises in the model.
- `number_of_files` and `size` are unbounded naturals in the model. A size that pandas turns
  into a float because of missing values is still a whole number of bytes here.
- plots/collection/file_types.py and plots/collection/mime-types.py are plotting fragments with
  no record logic of their own: a guard on the column being present, `value_counts` and matplotlib drawing.
