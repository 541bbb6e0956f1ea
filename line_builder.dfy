/** The Line chart builder (bokeh/charts/builder/line_builder.py): one "x"
    column holding the index, one "y_<name>" column per series, a y-range
    padded by a tenth of the data span, and one line renderer with one legend
    entry per series. */
module LineBuilder {
  import opened Models
  import opened Builders

  /** One turn of `get_data`'s loop: a skipped series changes nothing;
      otherwise its name joins the groups and its values, read at every
      index key, are stored under "y_" + name.  A missing key ends the loop
      (the source's lookup error) after the name has joined the groups. */
  function AddSeries(xs: seq<real>, d: Derived, entry: (string, map<real, real>), index: KwArg): (Derived, bool) {
    if Skipped(index, entry.0) then (d, true)
    else
      var grouped := Derived(d.data, d.attr, d.groups + [entry.0]);
      var ys := Lookup(entry.1, xs);
      if ys.None? then (grouped, false) else (Store(grouped, "y_", entry.0, ys.value), true)
  }

  /** What `get_data` leaves behind, starting from the group list `groups0`
      (which it does not reset), and whether it finished: "x" holds the
      index, then the series are added in key order until one fails. */
  function Derive(xs: seq<real>, series: Series, index: KwArg, groups0: seq<string>): (Derived, bool)
    decreases |series|
  {
    if series == [] then (Store(Derived(map[], [], groups0), "x", "", xs), true)
    else
      var prev := Derive(xs, series[..|series| - 1], index, groups0);
      if !prev.1 then prev else AddSeries(xs, prev.0, series[|series| - 1], index)
  }

  /** A run finishes when the run on all but the last series finished and
      the last series is skipped or has every index key. */
  lemma DeriveStepOk(xs: seq<real>, series: Series, index: KwArg, groups0: seq<string>)
    requires series != []
    ensures var last := series[|series| - 1];
      Derive(xs, series, index, groups0).1 ==
        (Derive(xs, series[..|series| - 1], index, groups0).1 && (Skipped(index, last.0) || Covers(last.1, xs)))
  {
  }

  /** Once a lookup has failed, later series change nothing. */
  lemma {:induction false} DeriveStops(xs: seq<real>, series: Series, index: KwArg, groups0: seq<string>, i: nat)
    requires i <= |series| && !Derive(xs, series[..i], index, groups0).1
    ensures Derive(xs, series, index, groups0) == Derive(xs, series[..i], index, groups0)
  {
    if i < |series| {
      var init := series[..|series| - 1];
      assert init[..i] == series[..i];
      DeriveStops(xs, init, index, groups0, i);
    } else {
      assert series[..i] == series;
    }
  }

  /** The run on one more series continues the run on the ones before. */
  lemma DeriveNext(xs: seq<real>, series: Series, index: KwArg, groups0: seq<string>, i: nat)
    requires i < |series|
    ensures Derive(xs, series[..i + 1], index, groups0) ==
      var prev := Derive(xs, series[..i], index, groups0);
      if !prev.1 then prev else AddSeries(xs, prev.0, series[i], index)
  {
    assert series[..i + 1][..i] == series[..i];
  }

  /** Whatever happens, "x" comes first and holds the whole index, every
      recorded name has a column, and every column is as long as the index. */
  lemma {:induction false} DeriveShape(xs: seq<real>, series: Series, index: KwArg, groups0: seq<string>)
    ensures var d := Derive(xs, series, index, groups0).0;
      |d.attr| >= 1 && d.attr[0] == "x" && "x" in d.data && d.data["x"] == xs &&
      Tracked(d.data, d.attr) &&
      forall k :: k in d.data ==> |d.data[k]| == |xs|
  {
    if series != [] {
      DeriveShape(xs, series[..|series| - 1], index, groups0);
      var col := series[|series| - 1].0;
      assert ("y_" + col)[0] == 'y';
    }
  }

  /** `get_data` finishes exactly when every series that is not skipped has
      a value at every index key. */
  lemma {:induction false} DeriveSucceeds(xs: seq<real>, series: Series, index: KwArg, groups0: seq<string>)
    ensures Derive(xs, series, index, groups0).1 == AllCovered(xs, series, index)
  {
    if series != [] {
      DeriveSucceeds(xs, series[..|series| - 1], index, groups0);
      DeriveStepOk(xs, series, index, groups0);
      AllCoveredLast(xs, series, index);
    }
  }

  /** A successful run ends with a successful run on all but the last
      series, followed by that series. */
  lemma DeriveLast(xs: seq<real>, series: Series, index: KwArg, groups0: seq<string>)
    requires series != [] && Derive(xs, series, index, groups0).1
    ensures Derive(xs, series[..|series| - 1], index, groups0).1
    ensures Derive(xs, series, index, groups0) ==
      AddSeries(xs, Derive(xs, series[..|series| - 1], index, groups0).0, series[|series| - 1], index)
  {
  }

  /** On success the attribute list is "x" then "y_<name>" for each kept
      series, and the kept names are appended to the groups it started with. */
  lemma {:induction false} DeriveLayout(xs: seq<real>, series: Series, index: KwArg, groups0: seq<string>)
    requires Derive(xs, series, index, groups0).1
    ensures var d := Derive(xs, series, index, groups0).0;
      d.attr == ["x"] + Prefixed("y_", Kept(series, index)) &&
      d.groups == groups0 + Kept(series, index) &&
      |d.attr| == 1 + |Kept(series, index)|
  {
    if series != [] {
      var init := series[..|series| - 1];
      var last := series[|series| - 1];
      DeriveLast(xs, series, index, groups0);
      DeriveLayout(xs, init, index, groups0);
      var prev := Derive(xs, init, index, groups0).0;
      var before := Kept(init, index);
      KeptLast(series, index);
      if !Skipped(index, last.0) {
        LayoutStep(xs, prev, last, index, ["x"] + Prefixed("y_", before), groups0 + before);
        PrefixedAppend("y_", before, last.0);
        ConcatAssoc(["x"], Prefixed("y_", before), ["y_" + last.0]);
        ConcatAssoc(groups0, before, [last.0]);
      } else {
        assert before + [] == before;
      }
    } else {
      assert "x" + "" == "x";
      assert Prefixed("y_", []) == [];
    }
  }

  /** A kept series that completes adds its "y_" name and its group. */
  lemma LayoutStep(xs: seq<real>, d: Derived, entry: (string, map<real, real>), index: KwArg, attr: seq<string>, groups: seq<string>)
    requires d.attr == attr && d.groups == groups
    requires !Skipped(index, entry.0) && AddSeries(xs, d, entry, index).1
    ensures AddSeries(xs, d, entry, index).0.attr == attr + ["y_" + entry.0]
    ensures AddSeries(xs, d, entry, index).0.groups == groups + [entry.0]
  {
  }

  /** The series `entry` has every index key and its values, read at the
      index in index order, are stored under "y_" + its name. */
  predicate HasColumn(xs: seq<real>, d: Derived, entry: (string, map<real, real>)) {
    Lookup(entry.1, xs).Some? && "y_" + entry.0 in d.data && d.data["y_" + entry.0] == Lookup(entry.1, xs).value
  }

  /** On success each kept series has its column. */
  lemma {:induction false} DeriveColumns(xs: seq<real>, series: Series, index: KwArg, groups0: seq<string>, j: nat)
    requires Derive(xs, series, index, groups0).1 && DistinctNames(series)
    requires j < |series| && !Skipped(index, series[j].0)
    ensures HasColumn(xs, Derive(xs, series, index, groups0).0, series[j])
  {
    var n := |series| - 1;
    var init := series[..n];
    DeriveLast(xs, series, index, groups0);
    if j < n {
      assert init[j] == series[j];
      DistinctInit(series);
      DeriveColumns(xs, init, index, groups0, j);
      ColumnKept(xs, Derive(xs, init, index, groups0).0, series[n], index, series[j]);
    } else {
      ColumnAdded(xs, Derive(xs, init, index, groups0).0, series[n], index);
    }
  }

  /** A turn for another series leaves the column of `other` as it was. */
  lemma ColumnKept(xs: seq<real>, d: Derived, entry: (string, map<real, real>), index: KwArg, other: (string, map<real, real>))
    requires other.0 != entry.0 && HasColumn(xs, d, other)
    ensures HasColumn(xs, AddSeries(xs, d, entry, index).0, other)
  {
    if !Skipped(index, entry.0) {
      PrefixKeepsApart("y_", entry.0, other.0);
    }
  }

  /** A finished turn for a series that is not skipped stores its column. */
  lemma ColumnAdded(xs: seq<real>, d: Derived, entry: (string, map<real, real>), index: KwArg)
    requires AddSeries(xs, d, entry, index).1 && !Skipped(index, entry.0)
    ensures HasColumn(xs, AddSeries(xs, d, entry, index).0, entry)
  {
  }

  /** The data and attribute list do not depend on the starting groups, and
      the groups only ever grow from them. */
  lemma {:induction false} DeriveFromGroups(xs: seq<real>, series: Series, index: KwArg, groups0: seq<string>)
    ensures var r := Derive(xs, series, index, []);
      Derive(xs, series, index, groups0) == (r.0.(groups := groups0 + r.0.groups), r.1)
  {
    if series != [] {
      var init := series[..|series| - 1];
      var last := series[|series| - 1];
      DeriveFromGroups(xs, init, index, groups0);
      var r := Derive(xs, init, index, []);
      if r.1 && !Skipped(index, last.0) {
        assert (groups0 + r.0.groups) + [last.0] == groups0 + (r.0.groups + [last.0]);
      }
    } else {
      assert groups0 + [] == groups0;
    }
  }

  /** Calling `get_data` a second time rebuilds the same columns and
      attributes but appends the series names to `groups` again. */
  lemma GetDataTwice(xs: seq<real>, series: Series, index: KwArg, groups0: seq<string>)
    requires Derive(xs, series, index, groups0).1
    ensures var first := Derive(xs, series, index, groups0).0;
      var second := Derive(xs, series, index, first.groups);
      second.1 && second.0.data == first.data && second.0.attr == first.attr &&
      second.0.groups == groups0 + Kept(series, index) + Kept(series, index)
  {
    var r := Derive(xs, series, index, []);
    DeriveFromGroups(xs, series, index, groups0);
    var first := Derive(xs, series, index, groups0).0;
    DeriveFromGroups(xs, series, index, first.groups);
    DeriveLayout(xs, series, index, []);
    assert r.0.groups == Kept(series, index);
    assert first.groups == groups0 + Kept(series, index);
  }

  /** After a successful `get_data`, `get_source` finds a y-range exactly
      when the index is non-empty and some series was kept. */
  lemma SourceSucceeds(xs: seq<real>, series: Series, index: KwArg, groups0: seq<string>)
    requires Derive(xs, series, index, groups0).1
    ensures var d := Derive(xs, series, index, groups0).0;
      Tracked(d.data, d.attr) &&
      (YRange(d.data, YNames(d.attr)).Some? <==> |xs| > 0 && |Kept(series, index)| > 0)
  {
    DeriveShape(xs, series, index, groups0);
    DeriveLayout(xs, series, index, groups0);
  }

  /** The padded y-range lies around every value of every kept series. */
  lemma RangeCoversSeries(xs: seq<real>, series: Series, index: KwArg, groups0: seq<string>, j: nat, k: nat)
    requires Derive(xs, series, index, groups0).1 && DistinctNames(series)
    requires j < |series| && !Skipped(index, series[j].0) && k < |xs|
    requires var d := Derive(xs, series, index, groups0).0;
      Tracked(d.data, d.attr) && YRange(d.data, YNames(d.attr)).Some?
    ensures xs[k] in series[j].1
    ensures var r := YRange(Derive(xs, series, index, groups0).0.data, YNames(Derive(xs, series, index, groups0).0.attr)).value;
      r.start <= series[j].1[xs[k]] <= r.end
  {
    var d := Derive(xs, series, index, groups0).0;
    DeriveLayout(xs, series, index, groups0);
    DeriveColumns(xs, series, index, groups0, j);
    LookupReads(series[j].1, xs);
    KeptHas(series, index, j);
    var kept := Kept(series, index);
    var i :| 0 <= i < |kept| && kept[i] == series[j].0;
    assert YNames(d.attr)[i] == "y_" + series[j].0;
  }

  /** The renderers `draw` yields for the y-columns `ys`: a line glyph from
      "x" to each column, with the colours taken in turn. */
  function Renderers(ys: seq<string>, source: Option<ColumnDataSource>): seq<GlyphRenderer> {
    seq(|ys|, i requires 0 <= i < |ys| => GlyphRenderer(source, LineGlyph("x", ys[i], i)))
  }

  /** The legend entries `draw` appends: the i-th group with the i-th
      renderer. */
  function Legends(ys: seq<string>, groups: seq<string>, source: Option<ColumnDataSource>): seq<LegendEntry>
    requires |ys| <= |groups|
  {
    seq(|ys|, i requires 0 <= i < |ys| => (groups[i], [Renderers(ys, source)[i]]))
  }

  /** What `draw` yields from the attribute layout alone. */
  lemma DrawnFrom(attr: seq<string>, groups: seq<string>, kept: seq<string>, groups0: seq<string>, source: Option<ColumnDataSource>)
    requires attr == ["x"] + Prefixed("y_", kept) && groups == groups0 + kept
    ensures |YNames(attr)| <= |groups| &&
      |Renderers(YNames(attr), source)| == |kept| &&
      (forall i :: 0 <= i < |kept| ==>
        Renderers(YNames(attr), source)[i].glyph == LineGlyph("x", "y_" + kept[i], i) &&
        Legends(YNames(attr), groups, source)[i] == ((groups0 + kept)[i], [Renderers(YNames(attr), source)[i]])) &&
      (groups0 == [] ==> forall i :: 0 <= i < |kept| ==> Legends(YNames(attr), groups, source)[i].0 == kept[i])
  {
    assert YNames(attr) == Prefixed("y_", kept);
  }

  /** After a successful `get_data`, `draw` yields one line per kept series
      in key order, plotting "y_<name>" against "x", and labels each with
      the group at the same position (the series name itself when the
      groups started empty). */
  lemma DrawFollowsSeries(xs: seq<real>, series: Series, index: KwArg, groups0: seq<string>, source: Option<ColumnDataSource>)
    requires Derive(xs, series, index, groups0).1
    ensures var d := Derive(xs, series, index, groups0).0;
      var kept := Kept(series, index);
      |YNames(d.attr)| <= |d.groups| &&
      |Renderers(YNames(d.attr), source)| == |kept| &&
      (forall i :: 0 <= i < |kept| ==>
        Renderers(YNames(d.attr), source)[i].glyph == LineGlyph("x", "y_" + kept[i], i) &&
        Legends(YNames(d.attr), d.groups, source)[i] == ((groups0 + kept)[i], [Renderers(YNames(d.attr), source)[i]])) &&
      (groups0 == [] ==> forall i :: 0 <= i < |kept| ==> Legends(YNames(d.attr), d.groups, source)[i].0 == kept[i])
  {
    DeriveLayout(xs, series, index, groups0);
    var d := Derive(xs, series, index, groups0).0;
    DrawnFrom(d.attr, d.groups, Kept(series, index), groups0, source);
  }

  /** `get_data`: reset the column map and attribute list (not the groups),
      store the index as "x", then one "y_<name>" column per series that is
      not skipped. */
  method GetData(b: Builder) returns (ok: bool)
    modifies b`data, b`attr, b`groups
    ensures (b.Snapshot(), ok) == Derive(b.valuesIndex, b.values, b.Index(), old(b.groups))
    ensures b.Valid()
  {
    b.data := map[];
    b.attr := [];
    b.SetAndGet("x", "", b.valuesIndex);
    ok := Walk(b, b.valuesIndex, b.values, b.Index(), old(b.groups));
  }

  /** `get_data`'s loop over the series, from the state its first store
      leaves. */
  method Walk(b: Builder, xs: seq<real>, series: Series, index: KwArg, ghost groups0: seq<string>) returns (ok: bool)
    requires b.Valid() && (b.Snapshot(), true) == Derive(xs, [], index, groups0)
    modifies b`data, b`attr, b`groups
    ensures (b.Snapshot(), ok) == Derive(xs, series, index, groups0)
    ensures b.Valid()
  {
    assert series[..0] == [];
    ok := true;
    var i := 0;
    while i < |series| && ok
      invariant 0 <= i <= |series|
      invariant (b.Snapshot(), ok) == Derive(xs, series[..i], index, groups0)
      invariant b.Valid()
    {
      DeriveNext(xs, series, index, groups0, i);
      ok := Turn(b, xs, series[i], index);
      i := i + 1;
    }
    if ok {
      assert series[..i] == series;
    } else {
      DeriveStops(xs, series, index, groups0, i);
    }
  }

  /** The body of `get_data`'s loop for one series, up to the lookup error
      that ends the loop. */
  method Turn(b: Builder, xs: seq<real>, entry: (string, map<real, real>), index: KwArg) returns (ok: bool)
    requires b.Valid()
    modifies b`data, b`attr, b`groups
    ensures (b.Snapshot(), ok) == AddSeries(xs, old(b.Snapshot()), entry, index)
    ensures b.Valid()
  {
    var (col, column) := entry;
    if Skipped(index, col) {
      return true;
    }
    b.groups := b.groups + [col];
    var ys := Lookup(column, xs);
    if ys.None? {
      return false;
    }
    b.SetAndGet("y_", col, ys.value);
    ok := true;
  }

  /** `get_source`: build the source and the x-range first, then the padded
      y-range over the y-columns; when that fails (no y-column, or an empty
      one) the y-range is left as it was. */
  method GetSource(b: Builder) returns (ok: bool)
    requires b.Valid()
    modifies b`source, b`xRange, b`yRange
    ensures b.source == Some(ColumnDataSource(b.data))
    ensures b.xRange == Some(DataRange1d(["x"]))
    ensures ok == YRange(b.data, YNames(b.attr)).Some?
    ensures b.yRange == if ok then YRange(b.data, YNames(b.attr)) else old(b.yRange)
  {
    b.source := Some(ColumnDataSource(b.data));
    b.xRange := Some(DataRange1d(["x"]));
    var r := YRange(b.data, YNames(b.attr));
    ok := r.Some?;
    if ok {
      b.yRange := r;
    }
  }

  /** `draw`: one line renderer per y-column in attribute order, each
      appended to the legends with its group. */
  method Draw(b: Builder) returns (rs: seq<GlyphRenderer>)
    requires |YNames(b.attr)| <= |b.groups|
    modifies b`legends
    ensures rs == Renderers(YNames(b.attr), b.source)
    ensures b.legends == old(b.legends) + Legends(YNames(b.attr), b.groups, b.source)
  {
    var ys := YNames(b.attr);
    rs := [];
    for i := 0 to |ys|
      invariant rs == Renderers(ys, b.source)[..i]
      invariant b.legends == old(b.legends) + Legends(ys, b.groups, b.source)[..i]
    {
      var renderer := GlyphRenderer(b.source, LineGlyph("x", ys[i], i));
      b.legends := b.legends + [(b.groups[i], [renderer])];
      rs := rs + [renderer];
    }
  }
}
