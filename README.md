# Chart builder pipeline of the Bokeh charts interface, in Dafny

This project models the builder pipeline behind the high-level charts
interface of Bokeh (`bokeh/charts`): the `Builder` base class, and its
`LineBuilder` and `StepBuilder` subclasses.

The pipeline takes named data series and a shared index. From them it derives:

- a column map;
- an ordered attribute list;
- a group list;
- a padded y-range;
- renderer descriptors and legend entries.

`create` then hands the results to a chart. A chart range slot takes the builder's range only when that slot is still unset.

Layout, one module per file:

- `models.dfy` (`Models`): value stand-ins for the plotting objects the builders construct. These are `ColumnDataSource`, `DataRange1d`/`Range1d`, line and segment glyphs, `GlyphRenderer`, legend entries, and keyword values.
- `builders.dfy` (`Builders`): the base class, from `_builder.py`. It holds:
  - the derived state and `_set_and_get` as the function `Store`;
  - the `Builder` class, whose fields the pipeline updates in place;
  - the `Chart` stand-in, with its range slots and append-only renderer, legend and builder lists;
  - the keyword split of `create_and_build`;
  - the per-series lookup and the padded y-range that both subclasses compute the same way.
- `line_builder.dfy` (`LineBuilder`) and `step_builder.dfy` (`StepBuilder`): the subclass hooks `get_data`, `get_source` and `draw`. Each is a method on a `Builder`. Each is proved against a specification function:
  - `Derive` gives the state `get_data` leaves.
  - `YRange` gives the y-range.
  - `Renderers`/`Legends` give what `draw` yields and appends.
- `charts.dfy` (`Charts`): `Builder.create`. The Python subclasses override the hooks; here `create` dispatches on the builder's `kind`.

How the source's behaviour is modelled:

- **Failures.** A missing index key in a series is a `KeyError` in `get_data`. An empty y-range is `max` of nothing in `get_source`. Both end `create` with `ok == false`. The builder keeps the partial state the source leaves:
  - after a failed `get_data`, the failing series' name is already in `groups` but has no column;
  - after a failed `get_source`, the source and x-range are set and the y-range is untouched.
- **Index skip in Line.** `LineBuilder.__init__` takes `index`, `legend` and `palette` as named parameters and does not pass them on. So a Line builder's `index` property stays unset, and its `get_data` skips no series. The Step builder keeps `index`, so a series named by a string `index` is skipped.
- **Groups across calls.** Line's `get_data` resets the column map and attributes but not `groups`. Calling it again appends the names a second time (`LineBuilder.GetDataTwice`). Step's `get_data` resets all three.
- **Step y-range.** The Step y-range is taken over `attr[1:]`, which includes `"x2"`. So the range also spans the index keys after the first (`StepBuilder.RangeCoversIndex`).
- **Step segments.** In Step's `draw`, the first segment of a pair has `x0 == x1 == "x2"`, so it is vertical. The second goes from `"x"` to `"x2"` at one level, so it is horizontal. The source's comments call them the other way round; the model follows the coordinates.
- **Legends.** `create` hands the chart the builder's whole accumulated legend list. That list is never reset.

## Model

| member | source | states |
|---|---|---|
| Builders.Store | bokeh/charts/_builder.py:193-205 | the name `prefix + val` maps to `content`; every other key keeps its column; the name is appended to the attribute list, earlier entries unchanged; on a collision the map keeps its size while the list still grows, otherwise both grow by one; every recorded name keeps a column |
| Builders.Builder.SetAndGet | bokeh/charts/_builder.py:207-217 | the builder's column map and attribute list become exactly what `Store` gives; every recorded name still has a column |
| Builders.SplitKeywords | bokeh/charts/_builder.py:32-39 | builder keywords are exactly the entries whose key is a builder property, chart keywords exactly the rest, with the same values; the two key sets are disjoint and together make up all keywords |
| Builders.Builder.constructor | bokeh/charts/_builder.py:110-120 | `values=None` becomes `[]`; legends, data, groups and attributes start empty; no source or ranges; a Line builder's properties lack `index`, `legend` and `palette`, which its own constructor captures |
| Builders.Builder.PrepareValues | bokeh/charts/_builder.py:128-131 | the adapter's index and adapted series replace the raw values |
| Builders.CreateAndBuild | bokeh/charts/_builder.py:31-43 | a fresh chart whose options are the non-property keywords, with one fresh builder registered, built from the property keywords, in its initial state: no derived data, groups or legends, no adapted index, and no source or ranges |
| Builders.Chart.constructor | bokeh/charts/_builder.py:40 | `Chart(**chart_kws)`: the options are the given keywords; no builders, renderers or legends; both range slots unset |
| Builders.Chart.AddRenderers | bokeh/charts/_builder.py:168 | renderers are appended in the order given |
| Builders.Chart.AddLegend | bokeh/charts/_builder.py:185 | legend entries are appended in the order given |
| Builders.Chart.AddBuilder | bokeh/charts/_builder.py:41 | the builder is appended to the chart's builders |
| Builders.Lookup | bokeh/charts/builder/line_builder.py:104 | the lookup succeeds exactly when the series has every index key, and then yields one value per key |
| Builders.Skipped | bokeh/charts/builder/line_builder.py:99-100 | defines the series `get_data` skips: the one whose key equals a string `index` property; `KeptHas` and the `DeriveSucceeds` lemmas use it |
| Builders.Kept | bokeh/charts/builder/line_builder.py:98-103 | defines the names appended to `_groups`, in key order and without the skipped series; `KeptHas` and `DeriveLayout` characterise it |
| Builders.YNames | bokeh/charts/builder/line_builder.py:115 | defines `attr[1:]`, the y-column names; `YRange`, `RangeCoversSeries` and `RangeCoversIndex` are stated over it |
| Builders.LookupReads | bokeh/charts/builder/line_builder.py:104 | a successful lookup holds, at each position, the series' value at that index key, in index order |
| Builders.Highest | bokeh/charts/builder/line_builder.py:116 | the result is an element and no element exceeds it |
| Builders.Lowest | bokeh/charts/builder/line_builder.py:117 | the result is an element and no element is below it |
| Builders.ColumnsHoldEach | bokeh/charts/builder/line_builder.py:116-117 | every value of every named column is among the values the bounds are taken over |
| Builders.YRange | bokeh/charts/builder/line_builder.py:115-121 | a range exists exactly when there is at least one name and no named column is empty; it is a `Range1d` whose start is the minimum minus a tenth of the span and whose end is the maximum plus a tenth of the span; every value of every named column lies within it |
| Builders.KeptHas | bokeh/charts/builder/line_builder.py:98-103 | every series that is not skipped is among the kept names |
| Builders.AllCoveredLast | bokeh/charts/builder/line_builder.py:98-104 | all kept series have every key exactly when the earlier ones do and the last one is skipped or has every key |
| LineBuilder.AddSeries | bokeh/charts/builder/line_builder.py:99-105 | defines one loop turn: a skipped series changes nothing; otherwise its name joins the groups and its lookup is stored under `"y_" + c`, or the turn fails after the group append; `Turn`, `ColumnKept` and `ColumnAdded` characterise it |
| LineBuilder.Derive | bokeh/charts/builder/line_builder.py:93-105 | defines the state `get_data` leaves and whether it finished, starting from the groups it does not reset; `DeriveShape`, `DeriveSucceeds`, `DeriveLayout`, `DeriveColumns` and `GetDataTwice` characterise it |
| LineBuilder.DeriveShape | bokeh/charts/builder/line_builder.py:93-97 | whatever happens, `attr[0] == "x"`, `data["x"]` is the whole index, every recorded name has a column, and every column is as long as the index |
| LineBuilder.DeriveSucceeds | bokeh/charts/builder/line_builder.py:98-105 | `get_data` finishes exactly when every series that is not skipped has a value at every index key |
| LineBuilder.DeriveStops | bokeh/charts/builder/line_builder.py:104 | once a lookup fails, the series after it change nothing |
| LineBuilder.DeriveNext | bokeh/charts/builder/line_builder.py:98-105 | the run on the first `i + 1` series is the run on the first `i` followed by one turn for series `i`, unless the run had already stopped |
| LineBuilder.DeriveLayout | bokeh/charts/builder/line_builder.py:95-105 | on success the attributes are `"x"` then `"y_" + c` for each kept series `c` in key order; the kept names are appended to the groups it started with; so there is one attribute more than there are kept series |
| LineBuilder.ColumnKept | bokeh/charts/builder/line_builder.py:98-105 | a turn for a series with another name leaves an earlier series' `"y_"` column as it was |
| LineBuilder.ColumnAdded | bokeh/charts/builder/line_builder.py:102-105 | a finished turn for a series that is not skipped stores its lookup at the index under `"y_" + c` |
| LineBuilder.DeriveColumns | bokeh/charts/builder/line_builder.py:98-105 | on success, with distinct series names, each kept series `c` has every index key and `data["y_" + c]` is its lookup at the index (so, with `LookupReads`, `values[c][x]` for each index key `x` in order) |
| LineBuilder.DeriveFromGroups | bokeh/charts/builder/line_builder.py:93-103 | columns, attributes and success do not depend on the groups `get_data` starts with; the groups it leaves are the starting groups followed by what it adds |
| LineBuilder.GetDataTwice | bokeh/charts/builder/line_builder.py:93-103 | a second `get_data` rebuilds the same columns and attributes but appends the kept names to the groups again |
| LineBuilder.SourceSucceeds | bokeh/charts/builder/line_builder.py:115-117 | after a successful `get_data`, the y-range exists exactly when the index is non-empty and some series was kept |
| LineBuilder.RangeCoversSeries | bokeh/charts/builder/line_builder.py:115-121 | the padded y-range lies around every value of every kept series |
| LineBuilder.DrawnFrom | bokeh/charts/builder/line_builder.py:128-131 | for the attribute layout `get_data` produces: one renderer per kept series; renderer `i` is a line from `"x"` to that series' `"y_"` column; legend entry `i` pairs group `i` with renderer `i` |
| LineBuilder.Renderers | bokeh/charts/builder/line_builder.py:128-132 | defines the line glyphs `draw` yields, from `"x"` to each y-column, colour `i`; `DrawnFrom` and `DrawFollowsSeries` characterise it |
| LineBuilder.Legends | bokeh/charts/builder/line_builder.py:131 | defines the legend entries `draw` appends, group `i` with renderer `i`; `DrawnFrom` and `DrawFollowsSeries` characterise it |
| LineBuilder.DrawFollowsSeries | bokeh/charts/builder/line_builder.py:127-132 | after a successful `get_data`: there are as many renderers and legend entries as kept series, in key order; each line plots `"y_" + c` against `"x"`; with no earlier groups each legend is labelled by its series name |
| LineBuilder.GetData | bokeh/charts/builder/line_builder.py:88-105 | the new column map, attributes and groups, and whether the loop finished, are exactly `Derive` of the index, the series, the index property and the old groups; every recorded name has a column |
| LineBuilder.Walk | bokeh/charts/builder/line_builder.py:98-105 | from the state after the `"x"` store, the loop leaves exactly the state and outcome `Derive` gives; every recorded name has a column |
| LineBuilder.Turn | bokeh/charts/builder/line_builder.py:99-105 | one pass of the loop body changes the builder exactly as `AddSeries` says and reports whether the lookup succeeded |
| LineBuilder.GetSource | bokeh/charts/builder/line_builder.py:107-121 | the source holds the column map and the x-range refers to `"x"`; it succeeds exactly when `YRange` over `attr[1:]` exists and then sets the y-range to it; otherwise the y-range is unchanged |
| LineBuilder.Draw | bokeh/charts/builder/line_builder.py:123-132 | yields `Renderers` of `attr[1:]`, one line per y-column in attribute order, and appends the matching `(groups[i-1], [renderer])` entries to the legends |
| StepBuilder.DropLast | bokeh/charts/builder/step_builder.py:101 | one element shorter (empty stays empty) |
| StepBuilder.DropFirst | bokeh/charts/builder/step_builder.py:102 | one element shorter (empty stays empty) |
| StepBuilder.StepEnds | bokeh/charts/builder/step_builder.py:101-102 | the two halves have equal length; position `k` of the first is element `k` and of the second element `k + 1`, so step `k` runs from one value to the next; putting the dropped element back restores the sequence |
| StepBuilder.AddSeries | bokeh/charts/builder/step_builder.py:104-111 | defines one loop turn: a skipped series changes nothing; otherwise its name joins the groups and its lookup is stored without its last value under `"y1_" + c` and without its first under `"y2_" + c`, or the turn fails after the group append; `AddSeriesNames`, `AddSeriesEffect`, `ColumnKept` and `ColumnAdded` characterise it |
| StepBuilder.Derive | bokeh/charts/builder/step_builder.py:95-111 | defines the state `get_data` leaves and whether it finished, from a full reset; `DeriveShape`, `DeriveSucceeds`, `DeriveLayout` and `DeriveColumns` characterise it |
| StepBuilder.AddSeriesNames | bokeh/charts/builder/step_builder.py:103-111 | a finished turn records nothing for a skipped series, and otherwise appends `"y1_" + c`, `"y2_" + c` to the attributes and `c` to the groups |
| StepBuilder.AddSeriesEffect | bokeh/charts/builder/step_builder.py:103-111 | a skipped series changes nothing; otherwise its name joins the groups, and if it has every index key, "y1_" and "y2_" columns holding its values without the last and without the first are added and named |
| StepBuilder.InterleavedAt | bokeh/charts/builder/step_builder.py:110-111 | the y-attributes hold `"y1_" + c` at position `2i` and `"y2_" + c` at `2i + 1` for the `i`-th kept name `c` |
| StepBuilder.ShapeStep | bokeh/charts/builder/step_builder.py:103-111 | adding a series keeps the "x"/"x2" shape, finished or not |
| StepBuilder.DeriveShape | bokeh/charts/builder/step_builder.py:95-102 | whatever happens, `"x"` is the index without its last key and `"x2"` without its first; they come first in the attributes; every recorded name has a column; every column is as long as `"x"` |
| StepBuilder.DeriveSucceeds | bokeh/charts/builder/step_builder.py:103-111 | `get_data` finishes exactly when every series that is not skipped has a value at every index key |
| StepBuilder.DeriveStops | bokeh/charts/builder/step_builder.py:109 | once a lookup fails, the series after it change nothing |
| StepBuilder.DeriveNext | bokeh/charts/builder/step_builder.py:103-111 | the run on the first `i + 1` series is the run on the first `i` followed by one turn for series `i`, unless the run had already stopped |
| StepBuilder.DeriveLayout | bokeh/charts/builder/step_builder.py:98-111 | on success the attributes are `"x"`, `"x2"`, then `"y1_" + c`, `"y2_" + c` for each kept series in key order; the groups are exactly the kept names; so there are two attributes more than twice the number of groups |
| StepBuilder.ColumnKept | bokeh/charts/builder/step_builder.py:103-111 | a turn for a series with another name leaves an earlier series' `"y1_"` and `"y2_"` columns as they were |
| StepBuilder.ColumnAdded | bokeh/charts/builder/step_builder.py:107-111 | a finished turn for a series that is not skipped stores its lookup without the last value under `"y1_" + c` and without the first under `"y2_" + c` |
| StepBuilder.DeriveColumns | bokeh/charts/builder/step_builder.py:103-111 | on success, with distinct series names, each kept series has every index key, `"y1_" + c` holding its values at the index keys without the last, and `"y2_" + c` holding them without the first |
| StepBuilder.SourceSucceeds | bokeh/charts/builder/step_builder.py:119-121 | after a successful `get_data`, the y-range exists exactly when the index has at least two keys |
| StepBuilder.RangeCoversIndex | bokeh/charts/builder/step_builder.py:119-125 | since `attr[1:]` includes `"x2"`, the y-range also spans every index key after the first |
| StepBuilder.RangeCoversSeries | bokeh/charts/builder/step_builder.py:119-125 | the padded y-range lies around every value of every kept series |
| StepBuilder.CoversAt | bokeh/charts/builder/step_builder.py:119-125 | on the `get_data` layout, the two columns of a kept series are y-columns, so the y-range spans each of its values |
| StepBuilder.Pairs | bokeh/charts/builder/step_builder.py:132 | an even-length list becomes half as many consecutive pairs, pair `i` being elements `2i` and `2i + 1` |
| StepBuilder.AfterIndex | bokeh/charts/builder/step_builder.py:132 | defines `attr[2:]`, the y-columns `draw` pairs up; `DrawnFrom` characterises it on the `get_data` layout |
| StepBuilder.PairRenderers | bokeh/charts/builder/step_builder.py:138-149 | defines a pair's two segments: at `"x2"` from the first column to the second, then from `"x"` to `"x2"` at the first column; `DrawnAt` and `DrawFollowsSeries` characterise it |
| StepBuilder.Renderers | bokeh/charts/builder/step_builder.py:136-151 | two renderers per pair |
| StepBuilder.Legends | bokeh/charts/builder/step_builder.py:150 | one legend entry per pair |
| StepBuilder.DrawNext | bokeh/charts/builder/step_builder.py:136-151 | drawing one more pair appends its two segments to the renderers and one legend entry, group `i` with the second segment |
| StepBuilder.DrawnAt | bokeh/charts/builder/step_builder.py:136-151 | renderers `2i` and `2i + 1` are the two segments of pair `i`; legend entry `i` is `(groups[i], [renderer 2i + 1])` |
| StepBuilder.DrawnFrom | bokeh/charts/builder/step_builder.py:132-151 | for the attribute layout `get_data` produces, `attr[2:]` has even length; its pairs are one per kept series; the segments and legend entries are as `DrawFollowsSeries` states |
| StepBuilder.DrawFollowsSeries | bokeh/charts/builder/step_builder.py:132-151 | after a successful `get_data`, pairs match groups one to one; for the `i`-th kept series `c`, renderer `2i` is the vertical segment at `"x2"` from `"y1_" + c` to `"y2_" + c`, renderer `2i + 1` the horizontal segment from `"x"` to `"x2"` at `"y1_" + c`, and only the latter is in the legend, labelled `c` |
| StepBuilder.GetData | bokeh/charts/builder/step_builder.py:90-111 | the new column map, attributes and groups, and whether the loop finished, are exactly `Derive` of the index, the series and the index property, independent of the old state (so repeating it gives the same state); every recorded name has a column |
| StepBuilder.Walk | bokeh/charts/builder/step_builder.py:103-111 | from the state after the `"x"` and `"x2"` stores, the loop leaves exactly the state and outcome `Derive` gives; every recorded name has a column |
| StepBuilder.Turn | bokeh/charts/builder/step_builder.py:104-111 | one pass of the loop body changes the builder exactly as `AddSeries` says and reports whether the lookup succeeded |
| StepBuilder.GetSource | bokeh/charts/builder/step_builder.py:113-125 | the source holds the column map and the x-range refers to `"x"` and `"x2"`; it succeeds exactly when `YRange` over `attr[1:]` exists and then sets the y-range to it; otherwise the y-range is unchanged |
| StepBuilder.Draw | bokeh/charts/builder/step_builder.py:127-151 | yields `Renderers` of the pairs of `attr[2:]`, two segments per pair in pair order, and appends `(groups[i], [second segment])` per pair to the legends |
| StepBuilder.DrawPairs | bokeh/charts/builder/step_builder.py:136-151 | the loop over the pairs yields exactly `Renderers` of them and appends exactly `Legends` of them |
| Charts.Fetch | bokeh/charts/_builder.py:163-164 | the adapted values are installed; the derived state and success are the kind's `Derive`; on success `draw`'s requirements on the layout hold |
| Charts.Render | bokeh/charts/_builder.py:165-166 | the source and the kind's x-range are built; success exactly when the y-range exists; on success the renderers and new legend entries are the kind's `draw` output; on failure no renderers are yielded, no legend entry is appended and the y-range is unchanged |
| Charts.Build | bokeh/charts/_builder.py:163-166 | the builder's state after the four steps, for success and for failure at each step; success exactly when `get_data` finishes and the y-range exists; on failure no renderers are returned |
| Charts.Receive | bokeh/charts/_builder.py:168-185 | renderers are appended; each unset range slot takes the builder's range and a set one is kept; the builder's legend list is appended; options and builders unchanged |
| Charts.XRangeOf | bokeh/charts/builder/line_builder.py:113 | defines the x-range `get_source` builds by kind: a `DataRange1d` over `"x"` for Line, and over `"x"` and `"x2"` for Step (step_builder.py line 118); `Render` and `Create` are stated over it |
| Charts.Run | bokeh/charts/_builder.py:164 | defines `get_data` by kind: Line's `Derive` from the old groups, Step's `Derive` from a reset; `Fetch`, `Build` and `Create` are stated over it |
| Charts.Drawn | bokeh/charts/_builder.py:166 | defines `draw` by kind: the renderers and legend entries of `attr[1:]` for Line and of the pairs of `attr[2:]` for Step; `Render`, `Build` and `Create` are stated over it |
| Charts.Create | bokeh/charts/_builder.py:162-187 | the builder is left exactly as `Build` states (properties kept, state from the kind's `Derive`, source and x-range set once `get_data` finishes, y-range set to `YRange` on success, the drawn legend entries appended); on success the chart receives the drawn renderers in order, the builder's ranges only in unset slots (so an unset y-range becomes the padded `YRange`), and the builder's whole legend list; on failure the chart is untouched |

## Left out

- `DataAdapter` and the adapting part of `prepare_values` are not part of this model. `Charts.Create` takes the adapter's index and ordered series as parameters.
- Index keys are reals and series map keys to reals. Other key or value types, such as strings or dates, are not modelled.
- Arithmetic is exact `real`. The source pads the range in floating point, and its rounding is not modelled.
- Arrays are sequences; numpy is not part of this model.
- The `HasProps` machinery is not part of this model. `properties()` is a parameter of `CreateAndBuild`. The `Any` properties other than `index` are not modelled, and neither is the stray `alette` property.
- `Chart` is not part of this model beyond what `create` touches:
  - the range slots;
  - the renderer, legend and builder lists, which are append-only.
  `add_builder` running `create` on the chart is not modelled.
- `cycle_colors` is not part of this model. A glyph records the position of its colour in the cycled list.
- `chunk` is modelled as consecutive pairing (`StepBuilder.Pairs`).
- `draw` is a generator in the source; here it is eager. The legend entries are appended in the same order as the source appends them.
- Exceptions are reduced to a success flag, and the exception types are not kept. `create` called without a chart (its `chart=None` default) is not modelled.
- LineBuilder.Draw: requires at least as many groups as y-columns. The source raises `IndexError` part-way through the generator otherwise, which cannot happen after a successful `get_data`.
- StepBuilder.Draw: requires an even number of attributes after the index, at most two per group, and a built source. The source fails part-way otherwise: a short pair, a missing group, or no `_source` before `get_source`. None of these can happen after a successful `get_data` and `get_source`.
- Builders.CreateAndBuild: its ensures describe the chart and builder before `create` runs, because `add_builder` is modelled as a plain append. The `create` step that `add_builder` triggers is given separately by `Charts.Create`.
- `x_range` and `y_range` keywords: they are builder properties, so `create_and_build` passes them to the builder, whose `get_source` then overwrites them. `KwArg` has no range value, so these keywords are not modelled. `Builders.Builder.constructor` starts both ranges unset. The chart ends the same either way.
- The commented-out legend-orientation code of `create` and the public `Line`/`Step` wrappers are not modelled. They only forward to `create_and_build`.
