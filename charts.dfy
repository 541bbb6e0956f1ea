/** `Builder.create` (bokeh/charts/_builder.py): the template method that
    runs a builder's steps in order and hands what they produce to a chart.
    The steps dispatch on the builder's kind, as the Python subclasses
    override them. */
module Charts {
  import opened Models
  import opened Builders
  import LineBuilder
  import StepBuilder

  /** What `get_data` leaves on a builder of the given kind, and whether it
      finished, started from the given groups (a Step builder resets them). */
  function Run(kind: Kind, xs: seq<real>, series: Series, index: KwArg, groups0: seq<string>): (Derived, bool) {
    if kind == LineKind then LineBuilder.Derive(xs, series, index, groups0)
    else StepBuilder.Derive(xs, series, index)
  }

  /** The x-range `get_source` builds for a builder of the given kind. */
  function XRangeOf(kind: Kind): Range {
    if kind == LineKind then DataRange1d(["x"]) else DataRange1d(["x", "x2"])
  }

  /** Whether `draw` can run on this layout without running out of groups
      (and, for a Step builder, without an unpaired y-column). */
  predicate Drawable(kind: Kind, attr: seq<string>, groups: seq<string>) {
    if kind == LineKind then |YNames(attr)| <= |groups|
    else |StepBuilder.AfterIndex(attr)| % 2 == 0 && |StepBuilder.AfterIndex(attr)| <= 2 * |groups|
  }

  /** The renderers `draw` yields and the legend entries it appends. */
  function Drawn(kind: Kind, attr: seq<string>, groups: seq<string>, source: Option<ColumnDataSource>): (seq<GlyphRenderer>, seq<LegendEntry>)
    requires Drawable(kind, attr, groups)
  {
    if kind == LineKind then
      (LineBuilder.Renderers(YNames(attr), source), LineBuilder.Legends(YNames(attr), groups, source))
    else
      var pairs := StepBuilder.Pairs(StepBuilder.AfterIndex(attr));
      (StepBuilder.Renderers(pairs, source), StepBuilder.Legends(pairs, groups, source))
  }

  /** Whether all of `create`'s steps complete: `get_data` finds every index
      key and `get_source` finds a y-range. */
  predicate Completes(kind: Kind, xs: seq<real>, series: Series, index: KwArg, groups0: seq<string>) {
    var run := Run(kind, xs, series, index, groups0);
    run.1 && Tracked(run.0.data, run.0.attr) && YRange(run.0.data, YNames(run.0.attr)).Some?
  }

  lemma DoubleIsEven(n: nat)
    ensures (2 * n) % 2 == 0
  {
  }

  /** `prepare_values` then `get_data`: the adapted values are installed
      and the columns derived from them; on success the layout is one
      `draw` can walk. */
  method Fetch(b: Builder, adaptedIndex: seq<real>, adaptedValues: Series) returns (fetched: bool)
    modifies b`valuesIndex, b`values, b`data, b`attr, b`groups
    ensures b.valuesIndex == adaptedIndex && b.values == adaptedValues
    ensures (b.Snapshot(), fetched) == Run(b.kind, adaptedIndex, adaptedValues, b.Index(), old(b.groups))
    ensures b.Valid()
    ensures fetched ==> Drawable(b.kind, b.attr, b.groups)
  {
    ghost var groups0 := b.groups;
    b.PrepareValues(adaptedIndex, adaptedValues);
    if b.kind == LineKind {
      fetched := LineBuilder.GetData(b);
      if fetched {
        LineBuilder.DeriveLayout(adaptedIndex, adaptedValues, b.Index(), groups0);
      }
    } else {
      fetched := StepBuilder.GetData(b);
      if fetched {
        StepBuilder.DeriveLayout(adaptedIndex, adaptedValues, b.Index());
        DoubleIsEven(|b.groups|);
      }
    }
  }

  /** `get_source` then `draw`: the source and x-range are always built;
      an empty y-range (`max` of nothing) stops before drawing. */
  method Render(b: Builder) returns (ok: bool, rs: seq<GlyphRenderer>)
    requires b.Valid() && Drawable(b.kind, b.attr, b.groups)
    modifies b`source, b`xRange, b`yRange, b`legends
    ensures b.source == Some(ColumnDataSource(b.data)) && b.xRange == Some(XRangeOf(b.kind))
    ensures ok == YRange(b.data, YNames(b.attr)).Some?
    ensures b.yRange == if ok then YRange(b.data, YNames(b.attr)) else old(b.yRange)
    ensures !ok ==> b.legends == old(b.legends)
    ensures !ok ==> rs == []
    ensures ok ==> rs == Drawn(b.kind, b.attr, b.groups, b.source).0
    ensures ok ==> b.legends == old(b.legends) + Drawn(b.kind, b.attr, b.groups, b.source).1
  {
    rs := [];
    if b.kind == LineKind {
      ok := LineBuilder.GetSource(b);
      if ok {
        rs := LineBuilder.Draw(b);
      }
    } else {
      ok := StepBuilder.GetSource(b);
      if ok {
        rs := StepBuilder.Draw(b);
      }
    }
  }

  /** The builder's half of `create`.  A series missing an index key (a
      KeyError in `get_data`) or an empty y-range ends it with
      `ok == false`, and the builder keeps what the steps did up to that
      point. */
  method Build(b: Builder, adaptedIndex: seq<real>, adaptedValues: Series) returns (ok: bool, rs: seq<GlyphRenderer>)
    modifies b
    ensures b.props == old(b.props) && b.valuesIndex == adaptedIndex && b.values == adaptedValues
    ensures b.Snapshot() == Run(b.kind, adaptedIndex, adaptedValues, b.Index(), old(b.groups)).0 && b.Valid()
    ensures ok == Completes(b.kind, adaptedIndex, adaptedValues, b.Index(), old(b.groups))
    // what `get_source` leaves on the builder
    ensures Run(b.kind, adaptedIndex, adaptedValues, b.Index(), old(b.groups)).1 ==>
      b.source == Some(ColumnDataSource(b.data)) && b.xRange == Some(XRangeOf(b.kind))
    ensures !Run(b.kind, adaptedIndex, adaptedValues, b.Index(), old(b.groups)).1 ==>
      b.source == old(b.source) && b.xRange == old(b.xRange)
    ensures b.yRange == if ok then YRange(b.data, YNames(b.attr)) else old(b.yRange)
    // what `draw` yields and appends to the builder's legends
    ensures !ok ==> b.legends == old(b.legends)
    ensures ok ==> Drawable(b.kind, b.attr, b.groups)
    ensures !ok ==> rs == []
    ensures ok ==> rs == Drawn(b.kind, b.attr, b.groups, b.source).0
    ensures ok ==> b.legends == old(b.legends) + Drawn(b.kind, b.attr, b.groups, b.source).1
  {
    var fetched := Fetch(b, adaptedIndex, adaptedValues);
    if !fetched {
      return false, [];
    }
    ok, rs := Render(b);
  }

  /** The chart's half of `create`: the renderers are added, each range
      slot the chart has not filled takes the builder's range, and the
      builder's legend list is added. */
  method Receive(chart: Chart, rs: seq<GlyphRenderer>, xRange: Option<Range>, yRange: Option<Range>, legends: seq<LegendEntry>)
    modifies chart
    ensures chart.renderers == old(chart.renderers) + rs
    ensures chart.xRange == (if old(chart.xRange).None? then xRange else old(chart.xRange))
    ensures chart.yRange == (if old(chart.yRange).None? then yRange else old(chart.yRange))
    ensures chart.legends == old(chart.legends) + legends
    ensures chart.options == old(chart.options) && chart.builders == old(chart.builders)
  {
    chart.AddRenderers(rs);
    if chart.xRange.None? {
      chart.xRange := xRange;
    }
    if chart.yRange.None? {
      chart.yRange := yRange;
    }
    chart.AddLegend(legends);
  }

  /** `create`: run the builder's steps, then hand the chart the renderers,
      the builder's ranges and its whole legend list.  When a step fails the
      chart is untouched. */
  method Create(b: Builder, chart: Chart, adaptedIndex: seq<real>, adaptedValues: Series) returns (ok: bool)
    modifies b, chart
    // the builder, as `Build` leaves it
    ensures b.props == old(b.props) && b.valuesIndex == adaptedIndex && b.values == adaptedValues
    ensures b.Snapshot() == Run(b.kind, adaptedIndex, adaptedValues, b.Index(), old(b.groups)).0 && b.Valid()
    ensures ok == Completes(b.kind, adaptedIndex, adaptedValues, b.Index(), old(b.groups))
    ensures Run(b.kind, adaptedIndex, adaptedValues, b.Index(), old(b.groups)).1 ==>
      b.source == Some(ColumnDataSource(b.data)) && b.xRange == Some(XRangeOf(b.kind))
    ensures !Run(b.kind, adaptedIndex, adaptedValues, b.Index(), old(b.groups)).1 ==>
      b.source == old(b.source) && b.xRange == old(b.xRange)
    ensures b.yRange == if ok then YRange(b.data, YNames(b.attr)) else old(b.yRange)
    ensures !ok ==> b.legends == old(b.legends)
    ensures ok ==> Drawable(b.kind, b.attr, b.groups)
    ensures ok ==> b.legends == old(b.legends) + Drawn(b.kind, b.attr, b.groups, b.source).1
    // the chart
    ensures ok ==> chart.renderers == old(chart.renderers) + Drawn(b.kind, b.attr, b.groups, b.source).0
    ensures ok ==> chart.xRange == (if old(chart.xRange).None? then b.xRange else old(chart.xRange))
    ensures ok ==> chart.yRange == (if old(chart.yRange).None? then b.yRange else old(chart.yRange))
    ensures ok ==> chart.legends == old(chart.legends) + b.legends
    ensures !ok ==> (chart.renderers == old(chart.renderers) && chart.legends == old(chart.legends) &&
      chart.xRange == old(chart.xRange) && chart.yRange == old(chart.yRange))
    ensures chart.options == old(chart.options) && chart.builders == old(chart.builders)
  {
    var rs;
    ok, rs := Build(b, adaptedIndex, adaptedValues);
    if ok {
      Receive(chart, rs, b.xRange, b.yRange, b.legends);
    }
  }
}
