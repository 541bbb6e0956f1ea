/** Value stand-ins for the plotting toolkit's model objects that the chart
    builders construct.  Each records only what the builders put into it: the
    column names a glyph or range refers to, the column map of a source, and
    the numeric bounds of an explicit range. */
module Models {

  /** `None` plays the part of Python's `None` for an unset slot. */
  datatype Option<+T> = None | Some(value: T)

  /** A keyword argument value as the charts interface receives it: Python's
      `None`, a string (a column name, a legend position), a sequence of
      numbers (an explicit index), or a flag. */
  datatype KwArg = Null | Text(s: string) | Numbers(xs: seq<real>) | Flag(b: bool)

  /** ColumnDataSource: a flat map from column name to column data. */
  datatype ColumnDataSource = ColumnDataSource(columns: map<string, seq<real>>)

  /** DataRange1d refers to columns of the source by name; Range1d holds
      explicit bounds. */
  datatype Range =
    | DataRange1d(sources: seq<string>)
    | Range1d(start: real, end: real)

  /** A glyph names the source columns it is drawn from.  `lineColor` is the
      position in the cycled colour list the builder picked from. */
  datatype Glyph =
    | LineGlyph(x: string, y: string, lineColor: nat)
    | Segment(x0: string, y0: string, x1: string, y1: string, lineColor: nat)

  /** A renderer pairs a glyph with the builder's source (unset before the
      source is built). */
  datatype GlyphRenderer = GlyphRenderer(dataSource: Option<ColumnDataSource>, glyph: Glyph)

  /** A legend entry: the series name and the renderers that represent it. */
  type LegendEntry = (string, seq<GlyphRenderer>)
}
