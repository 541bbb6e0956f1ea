/** The builder base of the charts interface (bokeh/charts/_builder.py): the
    derived state every chart builder accumulates (column map, attribute
    list, group list, legends, ranges), the naming helper that fills it, the
    chart accumulator it is pushed into, and the keyword split of
    `create_and_build`.  Helpers shared verbatim by the line and step
    builders (the per-series lookup and the padded y-range) live here too. */
module Builders {
  import opened Models

  /** Named data series in key order, each mapping index keys to values
      (the adapted values a builder iterates with `keys()`). */
  type Series = seq<(string, map<real, real>)>

  /** Series names are the keys of a mapping, hence distinct. */
  predicate DistinctNames(series: Series) {
    forall i, j :: 0 <= i < j < |series| ==> series[i].0 != series[j].0
  }

  lemma DistinctInit(series: Series)
    requires series != [] && DistinctNames(series)
    ensures DistinctNames(series[..|series| - 1])
  {
    var init := series[..|series| - 1];
    assert forall a :: 0 <= a < |init| ==> init[a] == series[a];
  }

  /** The builder class a chart is built with. */
  datatype Kind = LineKind | StepKind

  /** The derived state `get_data` produces: the column map, the column
      names in creation order, and the series names that produced y-columns. */
  datatype Derived = Derived(data: map<string, seq<real>>, attr: seq<string>, groups: seq<string>)

  /** Every recorded attribute names a column of the map. */
  predicate Tracked(data: map<string, seq<real>>, attr: seq<string>) {
    forall i :: 0 <= i < |attr| ==> attr[i] in data
  }

  /** `_set_and_get`: store `content` under `prefix + val` and record that
      name.  There is no uniqueness check: a colliding name overwrites the
      stored column and is recorded a second time. */
  function Store(d: Derived, prefix: string, val: string, content: seq<real>): (r: Derived)
    ensures r.data.Keys == d.data.Keys + {prefix + val}
    ensures r.data[prefix + val] == content
    ensures forall k :: k in d.data && k != prefix + val ==> r.data[k] == d.data[k]
    ensures r.attr == d.attr + [prefix + val]
    ensures r.groups == d.groups
    ensures prefix + val in d.data ==> |r.data| == |d.data|
    ensures prefix + val !in d.data ==> |r.data| == |d.data| + 1
    ensures Tracked(d.data, d.attr) ==> Tracked(r.data, r.attr)
  {
    var name := prefix + val;
    assert name in d.data ==> d.data.Keys + {name} == d.data.Keys;
    Derived(d.data[name := content], d.attr + [name], d.groups)
  }

  /** True when the column has a value for every index key. */
  predicate Covers(column: map<real, real>, xs: seq<real>) {
    forall k :: 0 <= k < |xs| ==> xs[k] in column
  }

  /** The series a builder skips: the one whose key equals a string
      `index` property (that series supplied the index). */
  predicate Skipped(index: KwArg, col: string) {
    index.Text? && col == index.s
  }

  /** Every series that is not skipped has a value at every index key. */
  predicate AllCovered(xs: seq<real>, series: Series, index: KwArg) {
    forall j :: 0 <= j < |series| && !Skipped(index, series[j].0) ==> Covers(series[j].1, xs)
  }

  lemma AllCoveredLast(xs: seq<real>, series: Series, index: KwArg)
    requires series != []
    ensures var last := series[|series| - 1];
      AllCovered(xs, series, index) <==>
        AllCovered(xs, series[..|series| - 1], index) && (Skipped(index, last.0) || Covers(last.1, xs))
  {
    var init := series[..|series| - 1];
    assert forall j :: 0 <= j < |init| ==> init[j] == series[j];
  }

  /** `[values[col][x] for x in xs]`: the series read at every index key,
      or `None` where a key is missing (a lookup error in the source). */
  function Lookup(column: map<real, real>, xs: seq<real>): (r: Option<seq<real>>)
    ensures r.Some? <==> Covers(column, xs)
    ensures r.Some? ==> |r.value| == |xs|
  {
    if xs == [] then Some([])
    else if xs[0] !in column then None
    else match Lookup(column, xs[1..])
      case None => None
      case Some(rest) => Some([column[xs[0]]] + rest)
  }

  /** What a successful lookup holds: the series' value at each index key,
      in index order. */
  lemma {:induction false} LookupReads(column: map<real, real>, xs: seq<real>)
    requires Covers(column, xs)
    ensures forall k :: 0 <= k < |xs| ==> Lookup(column, xs).value[k] == column[xs[k]]
  {
    if xs != [] {
      assert Covers(column, xs[1..]);
      LookupReads(column, xs[1..]);
    }
  }

  /** Names of the series that are not skipped, in key order. */
  function Kept(series: Series, index: KwArg): seq<string> {
    if series == [] then []
    else
      var last := series[|series| - 1].0;
      Kept(series[..|series| - 1], index) + (if Skipped(index, last) then [] else [last])
  }

  lemma KeptLast(series: Series, index: KwArg)
    requires series != []
    ensures var last := series[|series| - 1].0;
      Kept(series, index) == Kept(series[..|series| - 1], index) + (if Skipped(index, last) then [] else [last])
  {
  }

  lemma {:induction false} KeptHas(series: Series, index: KwArg, j: nat)
    requires j < |series| && !Skipped(index, series[j].0)
    ensures series[j].0 in Kept(series, index)
  {
    if j < |series| - 1 {
      KeptHas(series[..|series| - 1], index, j);
    }
  }

  /** Every name with the prefix put in front, in order. */
  function Prefixed(prefix: string, names: seq<string>): (r: seq<string>)
  {
    seq(|names|, i requires 0 <= i < |names| => prefix + names[i])
  }

  lemma PrefixedAppend(prefix: string, names: seq<string>, name: string)
    ensures Prefixed(prefix, names + [name]) == Prefixed(prefix, names) + [prefix + name]
  {
  }

  lemma ConcatAssoc<T>(a: seq<T>, b: seq<T>, c: seq<T>)
    ensures a + b + c == a + (b + c)
  {
  }

  /** Different names stay different under a common prefix. */
  lemma PrefixKeepsApart(prefix: string, a: string, b: string)
    requires a != b
    ensures prefix + a != prefix + b
  {
    assert a == (prefix + a)[|prefix|..];
    assert b == (prefix + b)[|prefix|..];
  }

  /** The y-column names: `attr[1:]`, every attribute after the first. */
  function YNames(attr: seq<string>): seq<string> {
    if |attr| == 0 then [] else attr[1..]
  }

  /** The largest element, as `max` returns it. */
  function Highest(s: seq<real>): (m: real)
    requires |s| > 0
    ensures m in s
    ensures forall k :: 0 <= k < |s| ==> s[k] <= m
  {
    if |s| == 1 then s[0]
    else var rest := Highest(s[1..]); if s[0] >= rest then s[0] else rest
  }

  /** The smallest element, as `min` returns it. */
  function Lowest(s: seq<real>): (m: real)
    requires |s| > 0
    ensures m in s
    ensures forall k :: 0 <= k < |s| ==> m <= s[k]
  {
    if |s| == 1 then s[0]
    else var rest := Lowest(s[1..]); if s[0] <= rest then s[0] else rest
  }

  /** All values of the named columns, one column after the other. */
  function Columns(data: map<string, seq<real>>, names: seq<string>): seq<real>
    requires forall i :: 0 <= i < |names| ==> names[i] in data
  {
    if names == [] then [] else data[names[0]] + Columns(data, names[1..])
  }

  lemma {:induction false} ColumnsHoldEach(data: map<string, seq<real>>, names: seq<string>, i: nat, k: nat)
    requires forall j :: 0 <= j < |names| ==> names[j] in data
    requires i < |names| && k < |data[names[i]]|
    ensures data[names[i]][k] in Columns(data, names)
  {
    if i > 0 {
      ColumnsHoldEach(data, names[1..], i - 1, k);
    }
  }

  /** The padded y-range of `get_source`: the smallest and largest value
      over all the named columns together, widened on each side by a tenth
      of their difference.  `None` where the source fails: `max` of an empty
      generator (no names) or of an empty column. */
  function YRange(data: map<string, seq<real>>, names: seq<string>): (r: Option<Range>)
    requires forall i :: 0 <= i < |names| ==> names[i] in data
    ensures r.Some? <==> |names| > 0 && forall i :: 0 <= i < |names| ==> |data[names[i]]| > 0
    ensures r.Some? ==> r.value.Range1d?
    ensures r.Some? ==>
      var lo, hi := Lowest(Columns(data, names)), Highest(Columns(data, names));
      r.value.start == lo - 0.1 * (hi - lo) && r.value.end == hi + 0.1 * (hi - lo)
    ensures r.Some? ==> forall i, k :: 0 <= i < |names| && 0 <= k < |data[names[i]]| ==>
      r.value.start <= data[names[i]][k] <= r.value.end
  {
    if names == [] || exists i :: 0 <= i < |names| && |data[names[i]]| == 0 then None
    else
      assert |Columns(data, names)| > 0 by {
        ColumnsHoldEach(data, names, 0, 0);
      }
      var all := Columns(data, names);
      var lo, hi := Lowest(all), Highest(all);
      assert forall i, k :: 0 <= i < |names| && 0 <= k < |data[names[i]]| ==> lo <= data[names[i]][k] <= hi by {
        forall i, k | 0 <= i < |names| && 0 <= k < |data[names[i]]|
          ensures lo <= data[names[i]][k] <= hi
        {
          ColumnsHoldEach(data, names, i, k);
        }
      }
      Some(Range1d(lo - 0.1 * (hi - lo), hi + 0.1 * (hi - lo)))
  }

  /** Keyword split of `create_and_build`: the entries whose key is a builder
      property go to the builder, all others to the chart. */
  function SplitKeywords<V>(kws: map<string, V>, props: set<string>): (r: (map<string, V>, map<string, V>))
    ensures r.0.Keys == kws.Keys * props
    ensures r.1.Keys == kws.Keys - props
    ensures r.0.Keys !! r.1.Keys && r.0.Keys + r.1.Keys == kws.Keys
    ensures forall k :: k in r.0 ==> r.0[k] == kws[k]
    ensures forall k :: k in r.1 ==> r.1[k] == kws[k]
  {
    (map k | k in kws && k in props :: kws[k], map k | k in kws && k !in props :: kws[k])
  }

  /** The state a chart builder carries through its pipeline.  The Line and
      Step builders of the source are subclasses; here `kind` says which
      hooks the pipeline dispatches to. */
  class Builder {
    const kind: Kind
    /** Properties set through the keyword arguments. */
    var props: map<string, KwArg>
    var values: Series
    var valuesIndex: seq<real>
    var legends: seq<LegendEntry>
    var data: map<string, seq<real>>
    var groups: seq<string>
    var attr: seq<string>
    var source: Option<ColumnDataSource>
    var xRange: Option<Range>
    var yRange: Option<Range>

    /** Every recorded attribute names a column. */
    predicate Valid()
      reads this`data, this`attr
    {
      Tracked(data, attr)
    }

    /** The derived state as one value. */
    function Snapshot(): Derived
      reads this`data, this`attr, this`groups
    {
      Derived(data, attr, groups)
    }

    /** The `index` property (`None` unless set by keyword). */
    function Index(): KwArg
      reads this`props
    {
      if "index" in props then props["index"] else Null
    }

    /** `values=None` becomes `[]`; the derived state starts empty.  The Line
        builder's own constructor takes `index`, `legend` and `palette` as
        named parameters and does not pass them on, so they never become
        properties of a Line builder. */
    constructor (kind: Kind, values: Option<Series>, kws: map<string, KwArg>)
      ensures this.kind == kind
      ensures this.values == (if values.None? then [] else values.value)
      ensures props == (if kind == LineKind then kws - {"index", "legend", "palette"} else kws)
      ensures legends == [] && data == map[] && groups == [] && attr == []
      ensures valuesIndex == [] && source == None && xRange == None && yRange == None
      ensures Valid()
    {
      this.kind := kind;
      this.values := if values.None? then [] else values.value;
      props := if kind == LineKind then kws - {"index", "legend", "palette"} else kws;
      legends, data, groups, attr := [], map[], [], [];
      valuesIndex := [];
      source, xRange, yRange := None, None, None;
    }

    /** `prepare_values`: the data adapter's index and adapted series are
        installed in place of the raw values. */
    method PrepareValues(index: seq<real>, adapted: Series)
      modifies this`valuesIndex, this`values
      ensures valuesIndex == index && values == adapted
    {
      valuesIndex, values := index, adapted;
    }

    /** `set_and_get`: `_set_and_get` on this builder's column map and
        attribute list. */
    method SetAndGet(prefix: string, val: string, content: seq<real>)
      modifies this`data, this`attr
      ensures Snapshot() == Store(old(Snapshot()), prefix, val, content)
      ensures old(Valid()) ==> Valid()
    {
      var d := Store(Snapshot(), prefix, val, content);
      data, attr := d.data, d.attr;
    }
  }

  /** The chart accumulator, reduced to what the builders touch: the range
      slots (unset until a builder fills them) and append-only renderer,
      legend and builder lists. */
  class Chart {
    var options: map<string, KwArg>
    var builders: seq<Builder>
    var xRange: Option<Range>
    var yRange: Option<Range>
    var renderers: seq<GlyphRenderer>
    var legends: seq<LegendEntry>

    constructor (options: map<string, KwArg>)
      ensures this.options == options && builders == []
      ensures xRange == None && yRange == None && renderers == [] && legends == []
    {
      this.options := options;
      builders := [];
      xRange, yRange := None, None;
      renderers, legends := [], [];
    }

    method AddBuilder(b: Builder)
      modifies this`builders
      ensures builders == old(builders) + [b]
    {
      builders := builders + [b];
    }

    method AddRenderers(rs: seq<GlyphRenderer>)
      modifies this`renderers
      ensures renderers == old(renderers) + rs
    {
      renderers := renderers + rs;
    }

    method AddLegend(entries: seq<LegendEntry>)
      modifies this`legends
      ensures legends == old(legends) + entries
    {
      legends := legends + entries;
    }
  }

  /** `create_and_build`: split the keywords by the builder's property
      names, build the builder from its share and a chart from the rest, and
      register the builder with the chart.  The chart and builder are
      described as they are before `add_builder` runs `create` on them;
      `Charts.Create` gives what that step does. */
  method CreateAndBuild(kind: Kind, values: Option<Series>, kws: map<string, KwArg>, props: set<string>)
    returns (chart: Chart)
    ensures fresh(chart) && |chart.builders| == 1 && fresh(chart.builders[0])
    ensures chart.options == SplitKeywords(kws, props).1
    ensures chart.options.Keys == kws.Keys - props
    ensures chart.xRange == None && chart.yRange == None && chart.renderers == [] && chart.legends == []
    ensures var b := chart.builders[0];
      b.kind == kind && b.values == (if values.None? then [] else values.value) &&
      b.props == (if kind == LineKind then SplitKeywords(kws, props).0 - {"index", "legend", "palette"}
                  else SplitKeywords(kws, props).0) &&
      b.legends == [] && b.data == map[] && b.groups == [] && b.attr == [] &&
      b.valuesIndex == [] && b.source == None && b.xRange == None && b.yRange == None
  {
    var split := SplitKeywords(kws, props);
    var builder := new Builder(kind, values, split.0);
    chart := new Chart(split.1);
    chart.AddBuilder(builder);
  }
}
