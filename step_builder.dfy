/** The Step chart builder (bokeh/charts/builder/step_builder.py): the index
    split into the left ends "x" and right ends "x2" of each step, the series
    split the same way into "y1_<name>" and "y2_<name>", a padded y-range, and
    two segment renderers per series. */
module StepBuilder {
  import opened Models
  import opened Builders

  /** `s[:-1]`: everything but the last element (empty stays empty). */
  function DropLast(s: seq<real>): (r: seq<real>)
    ensures |r| == if |s| == 0 then 0 else |s| - 1
  {
    if |s| == 0 then [] else s[..|s| - 1]
  }

  /** `s[1:]`: everything but the first element (empty stays empty). */
  function DropFirst(s: seq<real>): (r: seq<real>)
    ensures |r| == if |s| == 0 then 0 else |s| - 1
  {
    if |s| == 0 then [] else s[1..]
  }

  /** The k-th step runs from the k-th value (kept by `DropLast`) to the
      next one (kept by `DropFirst`), and the two lists rebuild the whole
      sequence with its last, respectively first, element put back. */
  lemma StepEnds(s: seq<real>)
    ensures |DropLast(s)| == |DropFirst(s)|
    ensures forall k :: 0 <= k < |DropLast(s)| ==> DropLast(s)[k] == s[k] && DropFirst(s)[k] == s[k + 1]
    ensures |s| > 0 ==> DropLast(s) + [s[|s| - 1]] == s && [s[0]] + DropFirst(s) == s
  {
    if |s| > 0 {
      assert DropLast(s) + [s[|s| - 1]] == s[..|s| - 1] + [s[|s| - 1]];
    }
  }

  /** One turn of `get_data`'s loop: a skipped series changes nothing;
      otherwise its name joins the groups and its values, read at every
      index key, are stored without their last element under "y1_" + name
      and without their first under "y2_" + name.  A missing key ends the
      loop after the name has joined the groups. */
  function AddSeries(xs: seq<real>, d: Derived, entry: (string, map<real, real>), index: KwArg): (Derived, bool) {
    if Skipped(index, entry.0) then (d, true)
    else
      var grouped := Derived(d.data, d.attr, d.groups + [entry.0]);
      var ys := Lookup(entry.1, xs);
      if ys.None? then (grouped, false)
      else (Store(Store(grouped, "y1_", entry.0, DropLast(ys.value)), "y2_", entry.0, DropFirst(ys.value)), true)
  }

  /** The names one finished turn records. */
  lemma AddSeriesNames(xs: seq<real>, d: Derived, entry: (string, map<real, real>), index: KwArg)
    requires AddSeries(xs, d, entry, index).1
    ensures var r := AddSeries(xs, d, entry, index).0;
      if Skipped(index, entry.0) then r.attr == d.attr && r.groups == d.groups
      else r.attr == d.attr + ["y1_" + entry.0, "y2_" + entry.0] && r.groups == d.groups + [entry.0]
  {
    ConcatAssoc(d.attr, ["y1_" + entry.0], ["y2_" + entry.0]);
  }

  /** What one turn does, stated without the intermediate stores. */
  lemma AddSeriesEffect(xs: seq<real>, d: Derived, entry: (string, map<real, real>), index: KwArg)
    ensures Skipped(index, entry.0) ==> AddSeries(xs, d, entry, index) == (d, true)
    ensures !Skipped(index, entry.0) ==>
      var (r, ok) := AddSeries(xs, d, entry, index);
      ok == Covers(entry.1, xs) && r.groups == d.groups + [entry.0] &&
      (!ok ==> r.data == d.data && r.attr == d.attr) &&
      (ok ==> r.attr == d.attr + ["y1_" + entry.0, "y2_" + entry.0]) &&
      (ok ==> r.data == d.data["y1_" + entry.0 := DropLast(Lookup(entry.1, xs).value)]
                              ["y2_" + entry.0 := DropFirst(Lookup(entry.1, xs).value)])
  {
    ConcatAssoc(d.attr, ["y1_" + entry.0], ["y2_" + entry.0]);
  }

  /** What `get_data` leaves behind and whether it finished.  Everything is
      reset first, so the result depends on the index and the series alone. */
  function Derive(xs: seq<real>, series: Series, index: KwArg): (Derived, bool)
    decreases |series|
  {
    if series == [] then
      (Store(Store(Derived(map[], [], []), "x", "", DropLast(xs)), "x2", "", DropFirst(xs)), true)
    else
      var prev := Derive(xs, series[..|series| - 1], index);
      if !prev.1 then prev else AddSeries(xs, prev.0, series[|series| - 1], index)
  }

  /** A run finishes when the run on all but the last series finished and
      the last series is skipped or has every index key. */
  lemma DeriveStepOk(xs: seq<real>, series: Series, index: KwArg)
    requires series != []
    ensures var last := series[|series| - 1];
      Derive(xs, series, index).1 ==
        (Derive(xs, series[..|series| - 1], index).1 && (Skipped(index, last.0) || Covers(last.1, xs)))
  {
    AddSeriesEffect(xs, Derive(xs, series[..|series| - 1], index).0, series[|series| - 1], index);
  }

  /** The y-attribute names of the kept series: "y1_<name>", "y2_<name>"
      for each in turn. */
  function Interleaved(names: seq<string>): (r: seq<string>)
    ensures |r| == 2 * |names|
  {
    if names == [] then []
    else Interleaved(names[..|names| - 1]) + ["y1_" + names[|names| - 1], "y2_" + names[|names| - 1]]
  }

  lemma InterleavedLast(names: seq<string>, name: string)
    ensures Interleaved(names + [name]) == Interleaved(names) + ["y1_" + name, "y2_" + name]
  {
    assert (names + [name])[..|names|] == names;
  }

  lemma {:induction false} InterleavedAt(names: seq<string>, i: nat)
    requires i < |names|
    ensures |Interleaved(names)| == 2 * |names|
    ensures Interleaved(names)[2 * i] == "y1_" + names[i]
    ensures Interleaved(names)[2 * i + 1] == "y2_" + names[i]
  {
    var init := names[..|names| - 1];
    if i < |init| {
      InterleavedAt(init, i);
    } else if init != [] {
      InterleavedAt(init, 0);
    } else {
      assert Interleaved(init) == [];
    }
  }

  /** A "y1_" name is never a "y2_" name. */
  lemma HalvesApart(a: string, b: string)
    ensures "y1_" + a != "y2_" + b
  {
    assert ("y1_" + a)[1] == '1' && ("y2_" + b)[1] == '2';
  }

  /** The run on one more series is the run so far followed by that
      series, unless the run so far has already stopped. */
  lemma DeriveNext(xs: seq<real>, series: Series, index: KwArg, i: nat)
    requires i < |series|
    ensures Derive(xs, series[..i + 1], index) ==
      var prev := Derive(xs, series[..i], index);
      if !prev.1 then prev else AddSeries(xs, prev.0, series[i], index)
  {
    assert series[..i + 1][..i] == series[..i];
  }

  /** Once a lookup has failed, later series change nothing. */
  lemma {:induction false} DeriveStops(xs: seq<real>, series: Series, index: KwArg, i: nat)
    requires i <= |series| && !Derive(xs, series[..i], index).1
    ensures Derive(xs, series, index) == Derive(xs, series[..i], index)
  {
    if i < |series| {
      var init := series[..|series| - 1];
      assert init[..i] == series[..i];
      DeriveStops(xs, init, index, i);
    } else {
      assert series[..i] == series;
    }
  }

  /** A successful run ends with a successful run on all but the last
      series, followed by that series. */
  lemma DeriveLast(xs: seq<real>, series: Series, index: KwArg)
    requires series != [] && Derive(xs, series, index).1
    ensures Derive(xs, series[..|series| - 1], index).1
    ensures Derive(xs, series, index) ==
      AddSeries(xs, Derive(xs, series[..|series| - 1], index).0, series[|series| - 1], index)
  {
  }

  /** The shape every state of `get_data` keeps: "x" is the index without
      its last key and "x2" the index without its first, they come first in
      the attribute list, every recorded name has a column, and every column
      is as long as "x". */
  predicate Shaped(xs: seq<real>, d: Derived) {
    |d.attr| >= 2 && d.attr[0] == "x" && d.attr[1] == "x2" &&
    "x" in d.data && d.data["x"] == DropLast(xs) &&
    "x2" in d.data && d.data["x2"] == DropFirst(xs) &&
    Tracked(d.data, d.attr) &&
    forall k :: k in d.data ==> |d.data[k]| == |DropLast(xs)|
  }

  /** One turn keeps the shape, finished or not. */
  lemma ShapeStep(xs: seq<real>, d: Derived, entry: (string, map<real, real>), index: KwArg)
    requires Shaped(xs, d)
    ensures Shaped(xs, AddSeries(xs, d, entry, index).0)
  {
    AddSeriesEffect(xs, d, entry, index);
    assert ("y1_" + entry.0)[0] == 'y' && ("y2_" + entry.0)[0] == 'y';
    assert "x" != "y1_" + entry.0 && "x" != "y2_" + entry.0;
    assert "x2" != "y1_" + entry.0 && "x2" != "y2_" + entry.0;
  }

  /** Whatever happens, the state `get_data` leaves has that shape. */
  lemma {:induction false} DeriveShape(xs: seq<real>, series: Series, index: KwArg)
    ensures Shaped(xs, Derive(xs, series, index).0)
  {
    if series != [] {
      var init := series[..|series| - 1];
      DeriveShape(xs, init, index);
      var prev := Derive(xs, init, index);
      if prev.1 {
        ShapeStep(xs, prev.0, series[|series| - 1], index);
      }
    } else {
      assert "x" + "" == "x" && "x2" + "" == "x2";
    }
  }

  /** `get_data` finishes exactly when every series that is not skipped has
      a value at every index key. */
  lemma {:induction false} DeriveSucceeds(xs: seq<real>, series: Series, index: KwArg)
    ensures Derive(xs, series, index).1 == AllCovered(xs, series, index)
  {
    if series != [] {
      DeriveSucceeds(xs, series[..|series| - 1], index);
      DeriveStepOk(xs, series, index);
      AllCoveredLast(xs, series, index);
    }
  }

  /** The layout one successful turn keeps: "x", "x2", then two names per
      kept series, with the groups holding the kept names. */
  lemma LayoutStep(xs: seq<real>, d: Derived, entry: (string, map<real, real>), index: KwArg, before: seq<string>)
    requires AddSeries(xs, d, entry, index).1
    requires d.attr == ["x", "x2"] + Interleaved(before) && d.groups == before
    ensures var r := AddSeries(xs, d, entry, index).0;
      var after := before + (if Skipped(index, entry.0) then [] else [entry.0]);
      r.attr == ["x", "x2"] + Interleaved(after) && r.groups == after
  {
    AddSeriesNames(xs, d, entry, index);
    if Skipped(index, entry.0) {
      assert before + [] == before;
    } else {
      var names := ["y1_" + entry.0, "y2_" + entry.0];
      InterleavedLast(before, entry.0);
      ConcatAssoc(["x", "x2"], Interleaved(before), names);
    }
  }

  /** On success the attribute list is "x", "x2", then "y1_<name>",
      "y2_<name>" for each kept series in key order, and the groups are
      exactly the kept names; so there are 2 + 2 * |groups| attributes. */
  lemma {:induction false} DeriveLayout(xs: seq<real>, series: Series, index: KwArg)
    requires Derive(xs, series, index).1
    ensures var d := Derive(xs, series, index).0;
      d.attr == ["x", "x2"] + Interleaved(Kept(series, index)) &&
      d.groups == Kept(series, index) &&
      |d.attr| == 2 + 2 * |d.groups|
  {
    if series != [] {
      var init := series[..|series| - 1];
      DeriveLast(xs, series, index);
      DeriveLayout(xs, init, index);
      KeptLast(series, index);
      LayoutStep(xs, Derive(xs, init, index).0, series[|series| - 1], index, Kept(init, index));
    } else {
      assert "x" + "" == "x" && "x2" + "" == "x2";
      assert Interleaved([]) == [];
    }
  }

  /** The series `entry` has every index key and its values, read at the
      index, are stored without the last one under "y1_" + its name and
      without the first one under "y2_" + its name. */
  predicate HasHalves(xs: seq<real>, d: Derived, entry: (string, map<real, real>)) {
    Lookup(entry.1, xs).Some? &&
    "y1_" + entry.0 in d.data && d.data["y1_" + entry.0] == DropLast(Lookup(entry.1, xs).value) &&
    "y2_" + entry.0 in d.data && d.data["y2_" + entry.0] == DropFirst(Lookup(entry.1, xs).value)
  }

  /** A turn for another series leaves the columns of `other` as they were. */
  lemma ColumnKept(xs: seq<real>, d: Derived, entry: (string, map<real, real>), index: KwArg, other: (string, map<real, real>))
    requires other.0 != entry.0 && HasHalves(xs, d, other)
    ensures HasHalves(xs, AddSeries(xs, d, entry, index).0, other)
  {
    AddSeriesEffect(xs, d, entry, index);
    if !Skipped(index, entry.0) {
      PrefixKeepsApart("y1_", entry.0, other.0);
      PrefixKeepsApart("y2_", entry.0, other.0);
      HalvesApart(other.0, entry.0);
      HalvesApart(entry.0, other.0);
    }
  }

  /** A finished turn for a series that is not skipped stores its two
      halves. */
  lemma ColumnAdded(xs: seq<real>, d: Derived, entry: (string, map<real, real>), index: KwArg)
    requires AddSeries(xs, d, entry, index).1 && !Skipped(index, entry.0)
    ensures HasHalves(xs, AddSeries(xs, d, entry, index).0, entry)
  {
    AddSeriesEffect(xs, d, entry, index);
    HalvesApart(entry.0, entry.0);
  }

  /** On success each kept series has its two halves stored. */
  lemma {:induction false} DeriveColumns(xs: seq<real>, series: Series, index: KwArg, j: nat)
    requires Derive(xs, series, index).1 && DistinctNames(series)
    requires j < |series| && !Skipped(index, series[j].0)
    ensures HasHalves(xs, Derive(xs, series, index).0, series[j])
  {
    var n := |series| - 1;
    var init := series[..n];
    DeriveLast(xs, series, index);
    if j < n {
      assert init[j] == series[j];
      DistinctInit(series);
      DeriveColumns(xs, init, index, j);
      ColumnKept(xs, Derive(xs, init, index).0, series[n], index, series[j]);
    } else {
      ColumnAdded(xs, Derive(xs, init, index).0, series[n], index);
    }
  }

  /** After a successful `get_data`, `get_source` finds a y-range exactly
      when the index has at least two keys: "x2" is always among the
      y-columns, and every column has one element fewer than the index. */
  lemma SourceSucceeds(xs: seq<real>, series: Series, index: KwArg)
    requires Derive(xs, series, index).1
    ensures var d := Derive(xs, series, index).0;
      Tracked(d.data, d.attr) &&
      (YRange(d.data, YNames(d.attr)).Some? <==> |xs| >= 2)
  {
    DeriveShape(xs, series, index);
  }

  /** The y-range is taken over "x2" too, so it also spans every index key
      after the first. */
  lemma RangeCoversIndex(xs: seq<real>, series: Series, index: KwArg, k: nat)
    requires Derive(xs, series, index).1
    requires 1 <= k < |xs|
    ensures var d := Derive(xs, series, index).0;
      Tracked(d.data, d.attr) && YRange(d.data, YNames(d.attr)).Some? &&
      YRange(d.data, YNames(d.attr)).value.start <= xs[k] <= YRange(d.data, YNames(d.attr)).value.end
  {
    DeriveShape(xs, series, index);
    SourceSucceeds(xs, series, index);
    var d := Derive(xs, series, index).0;
    assert YNames(d.attr)[0] == "x2";
    assert d.data["x2"][k - 1] == xs[k];
  }

  /** The padded y-range lies around every value of every kept series. */
  lemma RangeCoversSeries(xs: seq<real>, series: Series, index: KwArg, j: nat, k: nat)
    requires Derive(xs, series, index).1 && DistinctNames(series)
    requires j < |series| && !Skipped(index, series[j].0) && 2 <= |xs| && k < |xs|
    ensures xs[k] in series[j].1
    ensures var d := Derive(xs, series, index).0;
      Tracked(d.data, d.attr) && YRange(d.data, YNames(d.attr)).Some? &&
      YRange(d.data, YNames(d.attr)).value.start <= series[j].1[xs[k]] <= YRange(d.data, YNames(d.attr)).value.end
  {
    SourceSucceeds(xs, series, index);
    DeriveLayout(xs, series, index);
    DeriveColumns(xs, series, index, j);
    KeptHas(series, index, j);
    var kept := Kept(series, index);
    var i :| 0 <= i < |kept| && kept[i] == series[j].0;
    CoversAt(xs, Derive(xs, series, index).0, kept, i, series[j], k);
  }

  /** On a layout of that shape, the two halves of a kept series are
      y-columns, so the y-range spans each of its values. */
  lemma CoversAt(xs: seq<real>, d: Derived, kept: seq<string>, i: nat, entry: (string, map<real, real>), k: nat)
    requires Tracked(d.data, d.attr) && d.attr == ["x", "x2"] + Interleaved(kept)
    requires i < |kept| && kept[i] == entry.0 && HasHalves(xs, d, entry)
    requires YRange(d.data, YNames(d.attr)).Some? && k < |xs|
    ensures xs[k] in entry.1
    ensures YRange(d.data, YNames(d.attr)).value.start <= entry.1[xs[k]] <= YRange(d.data, YNames(d.attr)).value.end
  {
    LookupReads(entry.1, xs);
    InterleavedAt(kept, i);
    assert YNames(d.attr)[1 + 2 * i] == "y1_" + entry.0;
    assert YNames(d.attr)[2 + 2 * i] == "y2_" + entry.0;
    if k < |xs| - 1 {
      assert d.data["y1_" + entry.0][k] == entry.1[xs[k]];
    } else {
      assert d.data["y2_" + entry.0][k - 1] == entry.1[xs[k]];
    }
  }

  /** `attr[2:]`: the attributes after "x" and "x2". */
  function AfterIndex(attr: seq<string>): seq<string> {
    if |attr| < 2 then [] else attr[2..]
  }

  /** `chunk(s, 2)`: consecutive pairs. */
  function Pairs(s: seq<string>): (r: seq<(string, string)>)
    requires |s| % 2 == 0
    ensures |r| == |s| / 2
    ensures forall i :: 0 <= i < |r| ==> r[i] == (s[2 * i], s[2 * i + 1])
  {
    if s == [] then [] else [(s[0], s[1])] + Pairs(s[2..])
  }

  /** The two renderers `draw` yields for one pair of y-columns: first a
      segment at x0 = x1 = "x2" from the first column to the second (so
      vertical), then a segment from "x" to "x2" at the first column's level
      (so horizontal). */
  function PairRenderers(pair: (string, string), color: nat, source: Option<ColumnDataSource>): seq<GlyphRenderer> {
    [GlyphRenderer(source, Segment("x2", pair.0, "x2", pair.1, color)),
     GlyphRenderer(source, Segment("x", pair.0, "x2", pair.0, color))]
  }

  /** All renderers `draw` yields, pair by pair. */
  function Renderers(pairs: seq<(string, string)>, source: Option<ColumnDataSource>): (r: seq<GlyphRenderer>)
    ensures |r| == 2 * |pairs|
  {
    if pairs == [] then []
    else Renderers(pairs[..|pairs| - 1], source) + PairRenderers(pairs[|pairs| - 1], |pairs| - 1, source)
  }

  /** The legend entries `draw` appends: one per pair, with the second
      renderer of the pair only. */
  function Legends(pairs: seq<(string, string)>, groups: seq<string>, source: Option<ColumnDataSource>): (r: seq<LegendEntry>)
    requires |pairs| <= |groups|
    ensures |r| == |pairs|
  {
    if pairs == [] then []
    else
      var i := |pairs| - 1;
      Legends(pairs[..i], groups, source) + [(groups[i], [PairRenderers(pairs[i], i, source)[1]])]
  }

  /** Drawing one more pair extends what the pairs before it drew. */
  lemma DrawNext(pairs: seq<(string, string)>, groups: seq<string>, source: Option<ColumnDataSource>, i: nat)
    requires i < |pairs| <= |groups|
    ensures Renderers(pairs[..i + 1], source) == Renderers(pairs[..i], source) + PairRenderers(pairs[i], i, source)
    ensures Legends(pairs[..i + 1], groups, source) ==
      Legends(pairs[..i], groups, source) + [(groups[i], [PairRenderers(pairs[i], i, source)[1]])]
  {
    assert pairs[..i + 1][..i] == pairs[..i];
  }

  lemma {:induction false} DrawnAt(pairs: seq<(string, string)>, groups: seq<string>, source: Option<ColumnDataSource>, i: nat)
    requires |pairs| <= |groups| && i < |pairs|
    ensures |Renderers(pairs, source)| == 2 * |pairs| && |Legends(pairs, groups, source)| == |pairs|
    ensures Renderers(pairs, source)[2 * i] == PairRenderers(pairs[i], i, source)[0]
    ensures Renderers(pairs, source)[2 * i + 1] == PairRenderers(pairs[i], i, source)[1]
    ensures Legends(pairs, groups, source)[i] == (groups[i], [Renderers(pairs, source)[2 * i + 1]])
  {
    var n := |pairs| - 1;
    var init := pairs[..n];
    if i < n {
      DrawnAt(init, groups, source, i);
      assert init[i] == pairs[i];
    } else if n > 0 {
      DrawnAt(init, groups, source, 0);
    }
  }

  /** After a successful `get_data`, `draw` pairs each kept series' "y1_"
      and "y2_" columns, yields two segments per series in key order, and
      labels the series (by its own name) with the second one only. */
  lemma DrawFollowsSeries(xs: seq<real>, series: Series, index: KwArg, source: Option<ColumnDataSource>, i: nat)
    requires Derive(xs, series, index).1 && i < |Kept(series, index)|
    ensures var d := Derive(xs, series, index).0;
      var c := Kept(series, index)[i];
      |AfterIndex(d.attr)| % 2 == 0 &&
      var pairs := Pairs(AfterIndex(d.attr));
      |pairs| == |d.groups| == |Kept(series, index)| &&
      Renderers(pairs, source)[2 * i].glyph == Segment("x2", "y1_" + c, "x2", "y2_" + c, i) &&
      Renderers(pairs, source)[2 * i + 1].glyph == Segment("x", "y1_" + c, "x2", "y1_" + c, i) &&
      Legends(pairs, d.groups, source)[i] == (c, [Renderers(pairs, source)[2 * i + 1]])
  {
    DeriveLayout(xs, series, index);
    var d := Derive(xs, series, index).0;
    DrawnFrom(d.attr, d.groups, source, i);
  }

  /** What `draw` yields from the attribute layout alone. */
  lemma DrawnFrom(attr: seq<string>, kept: seq<string>, source: Option<ColumnDataSource>, i: nat)
    requires attr == ["x", "x2"] + Interleaved(kept) && i < |kept|
    ensures |AfterIndex(attr)| % 2 == 0 &&
      var pairs := Pairs(AfterIndex(attr));
      |pairs| == |kept| &&
      Renderers(pairs, source)[2 * i].glyph == Segment("x2", "y1_" + kept[i], "x2", "y2_" + kept[i], i) &&
      Renderers(pairs, source)[2 * i + 1].glyph == Segment("x", "y1_" + kept[i], "x2", "y1_" + kept[i], i) &&
      Legends(pairs, kept, source)[i] == (kept[i], [Renderers(pairs, source)[2 * i + 1]])
  {
    InterleavedAt(kept, i);
    assert AfterIndex(attr) == Interleaved(kept);
    var pairs := Pairs(AfterIndex(attr));
    assert pairs[i] == ("y1_" + kept[i], "y2_" + kept[i]);
    DrawnAt(pairs, kept, source, i);
  }

  /** `get_data`: reset the column map, attribute list and groups, store the
      two halves of the index as "x" and "x2", then two columns per series
      that is not skipped.  Running it again gives the same state. */
  method GetData(b: Builder) returns (ok: bool)
    modifies b`data, b`attr, b`groups
    ensures (b.Snapshot(), ok) == Derive(b.valuesIndex, b.values, b.Index())
    ensures b.Valid()
  {
    b.data := map[];
    b.attr := [];
    b.groups := [];
    b.SetAndGet("x", "", DropLast(b.valuesIndex));
    b.SetAndGet("x2", "", DropFirst(b.valuesIndex));
    ok := Walk(b, b.valuesIndex, b.values, b.Index());
  }

  /** `get_data`'s loop over the series, from the state its first two
      stores leave. */
  method Walk(b: Builder, xs: seq<real>, series: Series, index: KwArg) returns (ok: bool)
    requires b.Valid() && (b.Snapshot(), true) == Derive(xs, [], index)
    modifies b`data, b`attr, b`groups
    ensures (b.Snapshot(), ok) == Derive(xs, series, index)
    ensures b.Valid()
  {
    assert series[..0] == [];
    ok := true;
    var i := 0;
    while i < |series| && ok
      invariant 0 <= i <= |series|
      invariant (b.Snapshot(), ok) == Derive(xs, series[..i], index)
      invariant b.Valid()
    {
      DeriveNext(xs, series, index, i);
      ok := Turn(b, xs, series[i], index);
      i := i + 1;
    }
    if ok {
      assert series[..i] == series;
    } else {
      DeriveStops(xs, series, index, i);
    }
  }

  /** The body of `get_data`'s loop for one series, up to the lookup error
      that ends the loop. */
  method Turn(b: Builder, xs: seq<real>, entry: (string, map<real, real>), index: KwArg) returns (ok: bool)
    requires b.Valid()
    modifies b`data, b`attr, b`groups
    ensures (b.Snapshot(), ok) == AddSeries(xs, old(b.Snapshot()), entry, index)
    ensures b.Valid()
  {
    var (col, column) := entry;
    if Skipped(index, col) {
      return true;
    }
    b.groups := b.groups + [col];
    var ys := Lookup(column, xs);
    if ys.None? {
      return false;
    }
    b.SetAndGet("y1_", col, DropLast(ys.value));
    b.SetAndGet("y2_", col, DropFirst(ys.value));
    ok := true;
  }

  /** `get_source`: build the source and an x-range over "x" and "x2"
      first, then the padded y-range over `attr[1:]`, which includes "x2";
      when that fails the y-range is left as it was. */
  method GetSource(b: Builder) returns (ok: bool)
    requires b.Valid()
    modifies b`source, b`xRange, b`yRange
    ensures b.source == Some(ColumnDataSource(b.data))
    ensures b.xRange == Some(DataRange1d(["x", "x2"]))
    ensures ok == YRange(b.data, YNames(b.attr)).Some?
    ensures b.yRange == if ok then YRange(b.data, YNames(b.attr)) else old(b.yRange)
  {
    b.source := Some(ColumnDataSource(b.data));
    b.xRange := Some(DataRange1d(["x", "x2"]));
    var r := YRange(b.data, YNames(b.attr));
    ok := r.Some?;
    if ok {
      b.yRange := r;
    }
  }

  /** `draw`: two segment renderers per pair of y-columns, and a legend
      entry with the group at the pair's position and the second segment.
      The source is set by `get_source` (a Step builder has no source
      attribute before that). */
  method Draw(b: Builder) returns (rs: seq<GlyphRenderer>)
    requires |AfterIndex(b.attr)| % 2 == 0 && |AfterIndex(b.attr)| <= 2 * |b.groups|
    requires b.source.Some?
    modifies b`legends
    ensures rs == Renderers(Pairs(AfterIndex(b.attr)), b.source)
    ensures b.legends == old(b.legends) + Legends(Pairs(AfterIndex(b.attr)), b.groups, b.source)
  {
    rs := DrawPairs(b, Pairs(AfterIndex(b.attr)));
  }

  /** `draw`'s loop over the pairs of y-columns. */
  method DrawPairs(b: Builder, pairs: seq<(string, string)>) returns (rs: seq<GlyphRenderer>)
    requires |pairs| <= |b.groups|
    modifies b`legends
    ensures rs == Renderers(pairs, b.source)
    ensures b.legends == old(b.legends) + Legends(pairs, b.groups, b.source)
  {
    rs := [];
    for i := 0 to |pairs|
      invariant rs == Renderers(pairs[..i], b.source)
      invariant b.legends == old(b.legends) + Legends(pairs[..i], b.groups, b.source)
    {
      DrawNext(pairs, b.groups, b.source, i);
      var first := GlyphRenderer(b.source, Segment("x2", pairs[i].0, "x2", pairs[i].1, i));
      rs := rs + [first];
      var second := GlyphRenderer(b.source, Segment("x", pairs[i].0, "x2", pairs[i].0, i));
      b.legends := b.legends + [(b.groups[i], [second])];
      rs := rs + [second];
    }
    assert pairs[..|pairs|] == pairs;
  }
}
