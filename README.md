# Pie-chart slice emphasis of the company-registry dashboard

The dashboard turns an aggregate query result into a pie chart. Each
result is a list of (label, value) rows in query order. Two pages can
"pull out" the biggest slice:

- `make_pie_chart` builds a pie from any result set. When `pull_biggest_value`
  is set, it allocates a zero pull list with one slot per row. It then sets the
  slot of the first maximum value (`idxmax`) to `pull_size`.
- `get_juridical_form` first overwrites every form label whose string form is
  `"None"` with `"NULL"`, in place. It then drops the `"NULL"` rows with a
  group filter, takes `idxmax` of the remaining counts (an index into the full
  row list) and builds a pull list with `0.2` at that index.

The model has four modules:

- `Frame` (rows.dfy) holds the rows, the label and value columns, and the in-place label normalisation.
- `Selection` (selection.dfy) is `idxmax`, optionally restricted to eligible rows, as a pure function characterised by first-maximum.
- `Pull` (pull.dfy) is the pull list, as a specification function plus a method that allocates an array and writes one slot.
- `Charts` (charts.dfy) has the two page operations. Each is a specification function whose contract states the chart it yields. Beside each is a method that runs the source's steps, proved equal to that function.

Values are `nat` because they come from `COUNT(*)` and `SUM` of counts. The
pull size is a `real` that is only copied. Where the data frame library raises
(`idxmax` over no rows, a group filter whose test is not a scalar), the model
returns an `Err`.

## Model

| member | source | states |
|---|---|---|
| Frame.NormalizeInPlace | app.py:63 | overwrites the label array in place so that it equals the normalised column of the old labels; length and order are kept |
| Frame.NormalizedChangesOnlyMissing | app.py:63 | a label changes exactly when its string form is "None" (missing or the literal string), and then becomes "NULL"; every other label is kept, in place |
| Frame.NormalizedHasNoMissing | app.py:63 | after normalisation no label is missing and none reads "None" |
| Frame.NormalizedSentinelRows | app.py:63-64 | a normalised label is "NULL" exactly when the raw label read "None" or "NULL", so these are the rows the filter drops |
| Selection.IdxMaxWhere | app.py:64 | over the eligible rows: returns None exactly when no row is eligible; otherwise the index of an eligible row whose value is at least every eligible value, with every earlier eligible value strictly smaller (first maximum wins) |
| Selection.IdxMax | app.py:38 | over all rows: None exactly for no rows; otherwise an index in range holding a maximum, with every earlier value strictly smaller |
| Selection.FirstMaxUnique | app.py:38 | at most one index satisfies the first-maximum property, so it fully determines the choice |
| Selection.IdxMaxWhereIff | app.py:64 | the selection returns k exactly when k is the first eligible maximum |
| Selection.TieGoesToFirst | app.py:38 | over values [5, 9, 9] the first of the tied maxima, index 1, is chosen |
| Selection.ExcludedNeverChosen | app.py:64 | over [100, 3, 7] with row 0 excluded, index 2 is chosen; the larger excluded row is not |
| Pull.MaskShape | app.py:37-38 | the pull list has one entry per row, holds the pull size at the chosen slot and 0 elsewhere, and with a non-zero size exactly that slot is offset |
| Pull.BuildPull | app.py:37-38 | allocates a fresh array of n entries equal to the pull list for slot k |
| Charts.PieChart | app.py:23-41 | defaults to flag false and size 0.2. With the flag off: labels and values in query order and no pull list. With the flag on: fails exactly when there are no rows; otherwise the pull list offsets the first maximum value by the pull size |
| Charts.MakePieChart | app.py:34-41 | the allocate-then-assign steps yield exactly the chart PieChart describes, including its failure |
| Charts.JuridicalFormPie | app.py:62-67 | fails with a non-scalar filter exactly when two rows share a normalised label. Otherwise it fails with an empty idxmax exactly when every label reads "None" or "NULL". Otherwise labels are the normalised column, values are unchanged, and the pull list offsets the first maximum non-"NULL" count by 0.2 |
| Charts.GetJuridicalForm | app.py:62-67 | copy, in-place normalisation, selection and pull-list allocation yield exactly JuridicalFormPie's chart |
| Charts.JuridicalPullsOneNonNull | app.py:64-66 | when the juridical-form chart is built, exactly one slice is pulled, at a position of the full row list, and no "NULL" row is ever pulled |
| Charts.NoPullWhenFlagOff | app.py:36-41 | with the flag off the chart is always built and carries no pull list |
| Charts.DefaultCallersNeverPull | app.py:23-24 | with the default arguments (flag false, size 0.2), as the status and enterprise-type pages call it (lines 84 and 99), the chart is always built and carries no pull list |
| Charts.PieChartPullsOneMax | app.py:36-39 | with rows and a non-zero pull size, exactly one slice is pulled; it holds the maximum value and is the first row that does |
| Charts.JuridicalFormScenario | app.py:62-67 | rows SA 120000, SPRL 80000, missing 5000, others 30000 give labels SA, SPRL, NULL, others in that order and pull list [0.2, 0, 0, 0] |
| Charts.AllNullFails | app.py:63-64 | a single missing form, or a single literal "None" form, leaves nothing to choose, and the page fails |
| Charts.MissingBesideLiteralNullFails | app.py:63-64 | a missing form next to a literal "NULL" form gives a two-row "NULL" group, and the filter fails before any choice is made |

## Left out

- SQLite connection and cursor handling, including connection errors written to the page (app.py:9-21). This is I/O.
- The SQL query texts, with their `CASE`, `GROUP BY` and `ORDER BY` logic and the `'others'` bucket. The database engine runs them; the model takes their result rows as input.
- Plotly figure construction and layout options (width, height, font sizes), and the Streamlit output and page selector. These are rendering and UI.
- Data frame construction, beyond the two things the code relies on: rows stay in query order, and the default index 0..n-1 makes `idxmax` an index into the full row list.
- The floating-point meaning of the pull size. It is only copied into one slot, so `real` stands for it.
- The two error kinds are the exceptions pandas raises. Their messages are not modelled.
- The pie's `pull_biggest_value is True` test: the model takes a `bool`, so only the literal `True` case counts as set.
- When no row can be chosen, `idxmax` raises, so the model returns `Err(EmptyArgMax)` and never an unemphasised chart.
- The code checks neither for negative values nor for the pull size's range, so values are `nat` and the pull size is taken as given.
