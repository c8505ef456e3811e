/**
 * What the builders' role choices mean for a renderer that, like plotly,
 * rejects a role naming a column the table lacks. `StrictRenderer` is an
 * assumption about plotly, not part of this code; the lemmas show which
 * plot types an iris-shaped table can then serve.
 */
module Scenarios {
  import opened Wrappers
  import opened Exceptions
  import opened Config
  import opened Plots
  import opened ReportGenerator

  /** Keywords whose value names a column of the table (everything but title and template). */
  const ColumnKeywords: set<string> := {"x", "y", "z", "lat", "lon", "hover_name", "color", "animation_frame"}

  /** The column names a render call refers to. */
  function ColumnsNamed(call: RenderCall): set<string>
  {
    set k | k in call.args && k in ColumnKeywords && call.args[k].Str? :: call.args[k].s
  }

  /** A renderer that draws exactly when every column a call names is in the table. */
  function StrictRenderer(data: Table, call: RenderCall): (r: Result<Figure, Exception>)
  {
    if forall c :: c in ColumnsNamed(call) ==> c in data.columns then Success(Figure(0))
    else Failure(LibraryError("column not found"))
  }

  /** Three columns of the iris data set, without `petal_length`, `latitude` or `longitude`. */
  const Iris := Table(["sepal_length", "sepal_width", "species"], 3)

  /**
   * With the strict renderer, the scatter plot draws on the iris columns while
   * the 3D scatter fails: its z role is the absent `petal_length`.
   */
  lemma IrisScatterBut3dFails()
    ensures CreatePlot(Iris, "scatter", map[], StrictRenderer).Success?
    ensures CreatePlot(Iris, "3d_scatter", map[], StrictRenderer).Failure?
  {
    IrisScatterCallDraws();
    IrisCubeCallFails();
  }

  /** The scatter plot's call names only columns the iris table has. */
  lemma IrisScatterCallDraws()
    ensures StrictRenderer(Iris, BuilderCall(Scatter, Null)).Success?
  {
    var scatter := BuilderCall(Scatter, Null);
    assert ColumnsNamed(scatter) == {"sepal_width", "sepal_length", "species"} by {
      assert scatter.args["x"] == Str("sepal_width");
      assert scatter.args["y"] == Str("sepal_length");
      assert scatter.args["color"] == Str("species");
    }
    assert Iris.columns[0] == "sepal_length" && Iris.columns[1] == "sepal_width" && Iris.columns[2] == "species";
  }

  /** The 3D scatter's call names `petal_length`, which the iris table lacks. */
  lemma IrisCubeCallFails()
    ensures StrictRenderer(Iris, BuilderCall(Scatter3D, Null)).Failure?
  {
    var cube := BuilderCall(Scatter3D, Null);
    assert cube.args["z"] == Str("petal_length");
    assert "petal_length" in ColumnsNamed(cube);
    assert "petal_length" !in Iris.columns;
  }

  /**
   * A report asking for a scatter plot and a map of the iris columns is never
   * written: the map's latitude role names an absent column.
   */
  lemma IrisReportWithMapFails(toHtml: Figure -> string)
    ensures ReportHtml(Iris, ["scatter", "geo_map"], StrictRenderer, toHtml).Failure?
  {
    var geo := BuilderCall(GeoMap, Null);
    assert geo.args["lat"] == Str("latitude");
    assert "latitude" in ColumnsNamed(geo);
    assert "latitude" !in Iris.columns;
    assert CreatePlot(Iris, "geo_map", map[], StrictRenderer).Failure?;
    var plot := PlotterFor(Iris, StrictRenderer);
    SectionsFailure(["scatter", "geo_map"], plot, toHtml);
    assert plot(["scatter", "geo_map"][1]).Failure?;
  }
}
