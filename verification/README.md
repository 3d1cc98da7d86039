# Project analytics dashboard — verified model of its rules

The system is a project-analytics dashboard. It has two parts:

- a browser page (`app.js`). It loads projects, statistics and model information from an API. It renders a filterable projects table and four charts. It shows a prediction card with recommendations.
- a FastAPI backend (`backend/api.py`). It serves the projects table and aggregate statistics from PostgreSQL. It answers `/predict` by feeding an encoded, column-aligned row to two pre-trained random-forest models.

This project models the deterministic rules under that plumbing, with their proofs:

| file | module | what it models |
|---|---|---|
| `wrappers.dfy` | `Wrappers` | `Option` and `Result` |
| `text.dfy` | `Text` | ASCII `toLowerCase`; `indexOf`/`includes`; `replace` of the first occurrence |
| `records.dfy` | `Records` | a project record and its columns |
| `filter.dfy` | `Filter` | the project filter: search box and status selector |
| `table.dfy` | `Table` | the table body; the status badge token |
| `recommend.dfy` | `Recommend` | the prediction card: delay, bottleneck and ROI advice |
| `charts.dfy` | `Charts` | chart handles with a `destroyed` flag; the statistics payload |
| `dashboard.dfy` | `App` | the page state, a class updated by the load, filter and chart handlers |
| `navigation.dfy` | `Navigation` | the navigation bar: `active` flags kept in two arrays and updated in place |
| `dummies.dfy` | `Dummies` | one-hot encoding of one categorical column as `pd.get_dummies` does it: sorted levels, `<column>_<level>` indicator columns, `drop_first` |
| `api.dfy` | `Api` | request validation and defaults; derived features; the `input_data` echo; one-hot encoding and column alignment; `/predict`, `/stats`, `/projects` |

Pure code in the source is modelled as functions and lemmas. Code that changes state is modelled as methods:

- the dashboard's global state;
- the navigation `active` classes;
- the chart handles;
- the column-alignment loop, which adds the missing columns to a map.

Network calls, the DOM, the chart library, pandas, the database and the trained models are parameters of the model. A handler receives what `fetch` and `response.json()` gave it: a decoded body, an error status whose body lacks the fields the handler reads, or a failed request. `PredictProject` receives the two models as functions.

The status badge token follows the code. The code lower-cases the status and replaces the first `" - "` with `"-"`. So `"In - Progress"` gives `in-progress` and `"On - Hold"` gives `on-hold`. A status written `"In Progress"` only gets lower-cased, to `in progress` (`Table.StatusClassPlainSpace`).

## Model

| member | source | states |
|---|---|---|
| Text.ToLower | app.js:294 | `toLowerCase`: the same length, and each character is the lower-cased character at the same position |
| Text.IndexOf | app.js:298-299 | `indexOf`: the first position where the pattern occurs, and `None` iff it occurs nowhere |
| Text.Includes | app.js:298 | `includes` holds iff the pattern occurs at some position |
| Text.LowerIdempotent | app.js:294 | lower-casing twice is the same as lower-casing once |
| Text.LowerConcat | app.js:294 | lower-casing works character by character, so it distributes over concatenation |
| Text.IncludesEmpty | app.js:298 | every string includes the empty string |
| Text.ReplaceFirst | app.js:275 | `replace` with a string pattern: without an occurrence the string comes back unchanged; otherwise the first occurrence, and only it, is swapped for the replacement, and the length changes accordingly |
| Text.ReplaceFirstSplit | app.js:275 | `replace` changes only the first occurrence of the pattern; the rest of the string, later occurrences included, is kept |
| Filter.FilterProjects | app.js:293-303 | the view is no longer than the cache, and a record is in it iff it is in the cache and matches the lower-cased search term and the status filter |
| Filter.Select | app.js:297-303 | a record is in the filtered list iff it is in the cache and matches: name or type contains the term, and the status filter is empty or equals the status |
| Filter.SelectIsSubsequence | app.js:297-303 | the filtered list keeps the cache's order |
| Filter.SelectCounts | app.js:297-303 | a matching record appears as often as in the cache; any other record does not appear |
| Filter.SelectAll | app.js:297-303 | when every record matches, the filter returns the list unchanged |
| Filter.FilterSpec | app.js:293-306 | the view is an order-preserving subsequence of the full cache; it holds every matching record with its multiplicity, and only matching records |
| Filter.FilterEmptyCriteria | app.js:294-300 | an empty search term and an empty status filter return the whole cache unchanged |
| Filter.FilterIgnoresCase | app.js:294 | the search term's case does not matter |
| Filter.FilterIdempotent | app.js:293-306 | filtering the view again with the same criteria changes nothing |
| Table.StatusClass | app.js:275 | the badge token: a status without `" - "` is only lower-cased; one with it loses exactly two characters |
| Table.LowerKeepsSeparator | app.js:275 | `" - "` occurs at the same positions before and after lower-casing |
| Table.SeparatorSurvivesLowering | app.js:275 | a status holds `" - "` iff its lower-cased form does |
| Table.StatusClassWithoutDash | app.js:275 | a status without a dash is only lower-cased |
| Table.StatusClassSplit | app.js:275 | for `a + " - " + b` with no earlier separator, the token is lower `a`, then `-`, then lower `b`; later separators stay |
| Table.StatusClassFirstWord | app.js:275 | the same holds whenever `a` contains no space |
| Table.StatusClassInProgress | app.js:275 | `"In - Progress"` gives `in-progress` |
| Table.StatusClassOnHold | app.js:275 | `"On - Hold"` gives `on-hold` |
| Table.StatusClassPlainSpace | app.js:275 | `"In Progress"` gives `in progress`, not `in-progress` |
| Table.RenderRow | app.js:272-281 | a project row has 8 cells: name, type, status badge, completion, cost, benefit, region, complexity. The project can be read back from them. The badge carries the status token and the raw status |
| Table.RenderRows | app.js:271-282 | one row per project, in input order |
| Table.RenderProjectsTable | app.js:263-283 | an empty list gives exactly the "No projects found" row, spanning 8 columns. N ≥ 1 projects give N project rows in order. Every row spans 8 columns |
| Table.RowsShowProjects | app.js:271-282 | reading the projects back from the rendered rows gives the input list |
| Table.TableShowsProjects | app.js:263-283 | reading the projects back from the table gives the input list; the placeholder shows none |
| Recommend.Roi | app.js:249 | for a nonzero cost, ROI times the cost is (benefit − cost) × 100 |
| Recommend.RoiThresholds | app.js:249-254 | for a positive cost: ROI > 0 iff benefit > cost, and ROI > 50 iff benefit > 1.5 × cost |
| Recommend.RoiAdvice | app.js:249-254 | ROI > 50 gives only "Excellent ROI"; 0 < ROI ≤ 50 gives only "Positive ROI"; ROI ≤ 0 gives no message. A zero cost gives "Excellent ROI" iff the benefit is positive |
| Recommend.DisplayPredictionResults | app.js:230-257 | the list has exactly one delay message (> 5 significant, (0, 5] minor, ≤ 0 on track), then exactly one bottleneck message, then at most one ROI message. The ROI message is present iff ROI > 0. The label is `Yes ⚠️` iff there is a bottleneck |
| Charts.Chart.constructor | app.js:113-184 | a new chart holds the kind, canvas, labels and values it was built with and is not destroyed |
| Charts.Chart.Destroy | app.js:101 | a destroyed chart is marked destroyed |
| App.TopFeatures | app.js:87-88 | `slice(0, 10)`: a prefix of the feature list, of length min(10, n) |
| App.Dashboard.constructor | app.js:3-4 | the page starts with an empty cache, no charts, no counters and no feature tags |
| App.Dashboard.LoadProjects | app.js:58-70 | a decoded list replaces the cache, and the table body is exactly the rendering of it: an empty list gives the single "No projects found" row, otherwise the rows read back as the list. An error status stores `undefined` in the cache; a failed request keeps the cache. Either failure shows only the "Failed to load projects" row |
| App.Dashboard.FilterProjects | app.js:293-306 | with a cached list, the table body is exactly the rendering of the filtered full cache: an order-preserving subsequence of the cache, never of a previous view, holding exactly the matching records with their multiplicities. Empty criteria show the whole cache. With `undefined` cached nothing is rendered and the table is unchanged. The cache is never changed |
| App.Dashboard.DestroyHeld | app.js:101 | every chart the map holds is destroyed; the map itself is unchanged |
| App.Dashboard.CreateCharts | app.js:100-185 | every chart held before is destroyed. Afterwards the charts are held under exactly the keys type, region, complexity and status, each new and not destroyed. Each has its kind and takes its labels and values from the matching breakdown, in response order. The status chart's labels are Completed, In Progress, Cancelled, On Hold, with the four status counts |
| App.Dashboard.LoadStatistics | app.js:42-56 | a decoded payload sets the counters to its values. It then rebuilds the charts as `createCharts` does: the old ones destroyed, four new ones drawn from the payload. An error status blanks the counters ("$NaN" for the cost) and destroys every held chart, but installs no new one. A failed request changes nothing |
| App.Dashboard.LoadModelInfo | app.js:72-97 | a decoded response shows the first ten feature names of each model. On an error status or a failed request the tags are unchanged |
| Navigation.FirstIndex | app.js:24 | `getElementById` among the sections: the first section with the id, or nothing iff no section has it |
| Navigation.SingleActive | app.js:20-24 | flags set at exactly one index count one active element |
| Navigation.NoneActive | app.js:20-21 | flags that are all clear count no active element |
| Navigation.NavBar.constructor | app.js:13-14 | the page's buttons and sections, with the `active` flags they start with |
| Navigation.NavBar.Click | app.js:17-25 | only the clicked button is active. When a section has the button's target id, exactly that section is active, and with distinct ids it is the one with that id. Otherwise no section is active and the handler fails |
| Api.OptionalField | backend/api.py:40-45 | an optional field is null iff it was given as null; an omitted one takes the default and a given one keeps its value |
| Api.ParseRequest | backend/api.py:34-45 | validation fails iff a required field is absent or null. Required values are taken as given. An omitted optional field takes its declared default, an explicit null stays null, and a given value is kept |
| Api.CompletionSpeed | backend/api.py:128 | `completion_speed`: for a positive duration, speed × duration gives back the percentage; otherwise 0. Over at least one day, a non-negative percentage gives a speed between 0 and the percentage |
| Api.CostEfficiency | backend/api.py:129 | `cost_efficiency`: for a positive cost, efficiency × cost gives back the benefit, and the efficiency exceeds 1 iff the benefit exceeds the cost; otherwise 0 |
| Api.InputData | backend/api.py:131-145 | `input_data` has exactly the 13 keys, echoes every input field, and holds the two derived features |
| Dummies.BelowIrreflexive | backend/api.py:148 | the order in which `get_dummies` sorts levels is irreflexive |
| Dummies.BelowTransitive | backend/api.py:148 | that order is transitive |
| Dummies.BelowTotal | backend/api.py:148 | any two different strings are ordered one way or the other |
| Dummies.InsertLevel | backend/api.py:148 | inserting a value into sorted levels keeps them sorted and adds exactly that value |
| Dummies.Levels | backend/api.py:148 | a column's levels are sorted and are exactly its non-null values |
| Dummies.DummyNameInjective | backend/api.py:148 | different levels of a column give different indicator column names |
| Dummies.DropFirstDropsFirstLevel | backend/api.py:148 | `drop_first` removes exactly the first level's indicator column: k levels give k − 1 columns |
| Dummies.DummyRow | backend/api.py:148 | a cell's indicator columns are those of the levels; the one named after the cell's value holds 1, every other holds 0 |
| Dummies.SingleCellLevels | backend/api.py:147-148 | a one-row column has its one value as its only level, or no level when the cell is null |
| Dummies.SingleRowDummies | backend/api.py:147-148 | in a one-row frame `drop_first` leaves a column with no indicator; without it, the row's own indicator holds 1 |
| Api.OneRowIndicators | backend/api.py:147-148 | the same, for each categorical column of the request |
| Api.EncodeInput | backend/api.py:147-148 | the one-row case of encoding a whole frame. With `drop_first` the row holds only the six numeric columns; without it each non-null categorical value also gets its own indicator at 1 |
| Api.AddMissingColumns | backend/api.py:150-153 | after the loop every training column is present. Columns already there keep their values; added ones hold 0 |
| Api.SelectColumns | backend/api.py:154 | `df[training_columns]`: one entry per training column, in training order, each holding the frame's value; columns outside the training list are dropped |
| Api.AlignColumns | backend/api.py:150-154 | the row has exactly the training columns in training order, with extra columns dropped. Each holds its encoded value, or 0 when it was missing |
| Api.AsWrittenIgnoresCategories | backend/api.py:147-157 | as written, inputs that differ only in categorical fields reach both models as the same row |
| Api.AsWrittenIgnoresRegion | backend/api.py:147-154 | for any request from the North and the same request from the South, with training column `region_South`: as written both rows hold 0 there |
| Api.CorrectedEncodesRegion | backend/api.py:147-154 | with the corrected encoding the training column named after the request's region holds 1 |
| Api.NorthHasNoSouthColumn | backend/api.py:147-148 | a northern request's encoding has no `region_South` column |
| Api.CorrectedTellsRegionsApart | backend/api.py:147-154 | with the corrected encoding the same two requests are told apart: 0 under `region_South` for the North, 1 for the South |
| Api.PredictProject | backend/api.py:125-163 | the response's `input_data` is exactly the request's echo, with `completion_speed` and `cost_efficiency`. Both models see the same aligned row of the encoding with the given `drop_first` flag. The bottleneck flag is the classifier's output read as a boolean |
| Api.CountOf | backend/api.py:89-92 | the number of entries equal to a value is that value's multiplicity in the column |
| Api.ValueCounts | backend/api.py:98-100 | `value_counts`: the keys are exactly the column's distinct values, each mapped to its multiplicity, which is positive |
| Api.GetStatistics | backend/api.py:87-101 | `total_projects` is the number of records. Each status count is the number of records with exactly that status. Each breakdown maps every distinct type, region or complexity to its number of records |
| Api.DistinctCountsBounded | backend/api.py:88-92 | the counts of four distinct values add up to at most the column's length. They add up to exactly that iff every entry is one of the four |
| Api.StatusCountsBounded | backend/api.py:88-92 | the four status counts add up to at most `total_projects`. They add up to exactly that iff every status is one of the four |
| Api.SumOfCovering | backend/api.py:98-100 | summed over distinct keys that cover every element, the multiplicities add up to the multiset's size |
| Api.CountsAddUp | backend/api.py:98-100 | the counts of `value_counts`, summed over the distinct values, give the column's length: every entry is counted once |
| Api.BreakdownsAddUp | backend/api.py:87-100 | each of the type, region and complexity breakdowns sums to `total_projects` |
| Api.GetProjects | backend/api.py:73-76 | `count` is the length of `projects`, and `projects` is the rows as read |

## Left out

- Fetching, `Promise.all`, async ordering, `alert` and console logging. Each handler takes the fetch outcome: a decoded body, an error status, or a failed request.
- DOM text beyond row and cell structure: `innerHTML` markup, `scrollIntoView` and the result card's visibility.
- `formatCurrency` (`Intl.NumberFormat`) and `toFixed`. Cells and counters hold the raw numbers.
- Chart library options, colours and rendering. A chart is its kind, canvas, labels, values and a `destroyed` flag. The null-safe `?.` on `destroy` is not needed: the model holds no null handles.
- Floating point. Numbers are exact reals. NaN and Infinity appear only in the zero-cost ROI case of `Recommend.RoiAdvice`.
- `parseFloat`/`parseInt` of form fields and the form submit handler (app.js:188-220).
- Lower-casing is ASCII only. Non-ASCII letters are left unchanged.
- `Navigation.NavBar.Click`: `getElementById` is searched among the sections only, not among every element of the page.
- The PostgreSQL connection, SQL `LIMIT` and the cast of datetime columns to strings in `/projects`. `Api.GetProjects` takes the rows the query returned.
- The float sums and means in `/stats` (`avg_completion_percent`, `total_cost`, `total_benefit`, `avg_cost`, `avg_benefit`).
- `Api.ValueCounts`: a map, so the descending-count order of `value_counts` is left out. The dashboard's chart labels take the server's key order as given.
- Null column values. `value_counts` skips them, so with nulls a breakdown sums to less than `total_projects`; records here have no nulls.
- Model loading, `/model-info`'s constant fields, and `predict` itself. The models are function parameters.
- The CORS middleware and the `/` route.
- Errors raised inside the endpoints (turned into HTTP 500) other than request validation. On the dashboard side, an error response is modelled as a body lacking every field the handler reads.
- Api.PredictProject: takes the `drop_first` flag as a parameter. The handler passes true (backend/api.py:148); the corrected behaviour is false, and the Findings row compares the two.
- `pd.get_dummies` is modelled on string cells only. Levels are sorted by code point, and name clashes between an indicator column and an existing column are not modelled.

## Findings

| source | as written | input that shows it | evidently intended | confidence | as-written member | corrected member |
|---|---|---|---|---|---|---|
| backend/api.py:147-148 | `get_dummies(..., drop_first=True)` on a one-row frame (`Api.EncodeInput` with `dropFirst` true) drops the only level of every categorical column. So complexity, type, manager, region, department, phase and status never reach the models, and every dummy training column is filled with 0 | two requests that differ only in region ("North" vs "South"), with training column `region_South`: both aligned rows hold 0 there | encode the single row without dropping its level, so the matching dummy column holds 1 | high; not executed | Api.AsWrittenIgnoresRegion | Api.CorrectedTellsRegionsApart |
