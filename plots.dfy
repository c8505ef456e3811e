/**
 * `plots.py`: the `create_plot` dispatcher and the eight `create_*` builders.
 *
 * Plotly is not modelled: a builder hands one `RenderCall` (which plotly entry
 * point, with which keyword arguments) to a `Renderer`, a parameter that either
 * returns an opaque `Figure` or raises. Every builder constructs a fresh
 * `Config()`, so every role it passes is a class-level default.
 */
module Plots {
  import opened Wrappers
  import opened Exceptions
  import opened Config

  /** A dataframe as the renderer sees it; this code never looks inside. */
  datatype Table = Table(columns: seq<string>, rows: nat)

  /** A plotly figure, passed through untouched. */
  datatype Figure = Figure(handle: nat)

  /** The eight plot types `create_plot` accepts. */
  datatype PlotKind = Scatter | Line | Histogram | Box | Scatter3D | GeoMap | Combined | AnimatedScatter

  /** The plotly entry point a builder calls. */
  datatype Chart =
    | PxScatter | PxLine | PxHistogram | PxBox | PxScatter3d | PxScatterGeo
      /** `go.Figure` with a marker trace and a rolling-mean line trace of the given window. */
    | GoScatterWithRollingMean(window: nat)

  /** One call into plotly: the entry point and its keyword arguments. */
  datatype RenderCall = RenderCall(chart: Chart, args: map<string, Value>)

  /** Plotly: a figure for the data and the call, or the exception it raised. */
  type Renderer = (Table, RenderCall) -> Result<Figure, Exception>

  const KnownTags: set<string> :=
    {"scatter", "line", "histogram", "box", "3d_scatter", "geo_map", "combined", "animated_scatter"}

  /** The tag `create_plot` compares against for each plot type. */
  function TagOf(k: PlotKind): string
  {
    match k
    case Scatter => "scatter"
    case Line => "line"
    case Histogram => "histogram"
    case Box => "box"
    case Scatter3D => "3d_scatter"
    case GeoMap => "geo_map"
    case Combined => "combined"
    case AnimatedScatter => "animated_scatter"
  }

  /** The `if`/`elif` chain of `create_plot`: which branch a tag takes, if any. */
  function ParseTag(tag: string): (r: Option<PlotKind>)
    ensures r.Some? <==> tag in KnownTags
    ensures r.Some? ==> TagOf(r.value) == tag
  {
    if tag == "scatter" then Some(Scatter)
    else if tag == "line" then Some(Line)
    else if tag == "histogram" then Some(Histogram)
    else if tag == "box" then Some(Box)
    else if tag == "3d_scatter" then Some(Scatter3D)
    else if tag == "geo_map" then Some(GeoMap)
    else if tag == "combined" then Some(Combined)
    else if tag == "animated_scatter" then Some(AnimatedScatter)
    else None
  }

  /** Each plot type's own tag selects that plot type. */
  lemma TagRoundTrip(k: PlotKind)
    ensures ParseTag(TagOf(k)) == Some(k)
  {
  }

  /**
   * The plotly call each builder makes, every role read from a fresh `Config()`;
   * `frame` is the `animation_frame` argument, used by the animated builder only.
   */
  function BuilderCall(k: PlotKind, frame: Value): (r: RenderCall)
    ensures "title" in r.args && r.args["title"] == ClassDefaults["title"]
    ensures "template" in r.args && r.args["template"] == ClassDefaults["theme"]
    ensures r.chart.GoScatterWithRollingMean? <==> k == Combined
  {
    var title := FreshRead("title");
    var theme := FreshRead("theme");
    match k
    case Scatter =>
      RenderCall(PxScatter, map["x" := FreshRead("x_column"), "y" := FreshRead("y_column"),
        "color" := FreshRead("color_column"), "title" := title, "template" := theme])
    case Line =>
      RenderCall(PxLine, map["x" := FreshRead("x_column"), "y" := FreshRead("y_column"),
        "color" := FreshRead("color_column"), "title" := title, "template" := theme])
    case Histogram =>
      RenderCall(PxHistogram, map["x" := FreshRead("x_column"),
        "color" := FreshRead("color_column"), "title" := title, "template" := theme])
    case Box =>
      RenderCall(PxBox, map["x" := FreshRead("x_column"), "y" := FreshRead("y_column"),
        "color" := FreshRead("color_column"), "title" := title, "template" := theme])
    case Scatter3D =>
      RenderCall(PxScatter3d, map["x" := FreshRead("x_column"), "y" := FreshRead("y_column"),
        "z" := FreshRead("z_column"), "color" := FreshRead("color_column"),
        "title" := title, "template" := theme])
    case GeoMap =>
      RenderCall(PxScatterGeo, map["lat" := FreshRead("latitude_column"),
        "lon" := FreshRead("longitude_column"), "hover_name" := FreshRead("hover_name"),
        "color" := FreshRead("color_column"), "title" := title, "template" := theme])
    case Combined =>
      RenderCall(GoScatterWithRollingMean(5), map["x" := FreshRead("x_column"),
        "y" := FreshRead("y_column"), "title" := title, "template" := theme])
    case AnimatedScatter =>
      RenderCall(PxScatter, map["x" := FreshRead("x_column"), "y" := FreshRead("y_column"),
        "color" := FreshRead("color_column"), "animation_frame" := frame,
        "title" := title, "template" := theme])
  }

  /** The message each builder raises its `PlotCreationError` with. */
  function BuilderMessage(k: PlotKind): string
  {
    match k
    case Scatter => "Failed to create scatter plot"
    case Line => "Failed to create line plot"
    case Histogram => "Failed to create histogram"
    case Box => "Failed to create box plot"
    case Scatter3D => "Failed to create 3D scatter plot"
    case GeoMap => "Failed to create geographical map"
    case Combined => "Failed to create combined plot"
    case AnimatedScatter => "Failed to create animated scatter plot"
  }

  /** `r` is what `try: return out / except Exception as e: raise PlotCreationError(message) from e` yields. */
  predicate Wraps(r: Result<Figure, Exception>, out: Result<Figure, Exception>, message: string)
  {
    match out
    case Success(fig) => r == Success(fig)
    case Failure(e) => r == Failure(PlotCreationError(message, Some(e)))
  }

  /**
   * The builder `create_<k>` (`create_animated_scatter_plot` takes `frame`):
   * the renderer's figure unchanged, or a `PlotCreationError` with the builder's
   * own message whose cause is the renderer's exception.
   */
  function Build(k: PlotKind, data: Table, frame: Value, render: Renderer): (r: Result<Figure, Exception>)
    ensures Wraps(r, render(data, BuilderCall(k, frame)), BuilderMessage(k))
  {
    match render(data, BuilderCall(k, frame))
    case Success(fig) => Success(fig)
    case Failure(e) => Failure(PlotCreationError(BuilderMessage(k), Some(e)))
  }

  /** `kwargs.get('animation_frame')`. */
  function FrameArg(kwargs: map<string, Value>): (r: Value)
    ensures !Truthy(r) <==> "animation_frame" !in kwargs || !Truthy(kwargs["animation_frame"])
    ensures "animation_frame" in kwargs ==> r == kwargs["animation_frame"]
  {
    if "animation_frame" in kwargs then kwargs["animation_frame"] else Null
  }

  function DispatchMessage(plotType: string): string
  {
    "Failed to create plot of type " + plotType
  }

  function UnsupportedMessage(plotType: string): string
  {
    "Unsupported plot type: " + plotType
  }

  const MissingFrameMessage := "Missing required argument: 'animation_frame'"

  /**
   * `create_plot(data, plot_type, **kwargs)`. Whatever fails inside (an unknown
   * tag, a missing animation frame, a builder's own error) leaves as one
   * `PlotCreationError` naming the tag, with the inner exception as its cause.
   */
  function CreatePlot(data: Table, plotType: string, kwargs: map<string, Value>, render: Renderer)
    : (r: Result<Figure, Exception>)
    ensures r.Failure? ==> r.error.PlotCreationError? && r.error.message == DispatchMessage(plotType)
                           && r.error.cause.Some?
    ensures r.Success? ==> plotType in KnownTags
                           && r == render(data, BuilderCall(ParseTag(plotType).value, FrameArg(kwargs)))
  {
    var inner :=
      match ParseTag(plotType)
      case None => Failure(ValueError(UnsupportedMessage(plotType)))
      case Some(k) =>
        if k == AnimatedScatter && !Truthy(FrameArg(kwargs)) then Failure(ValueError(MissingFrameMessage))
        else Build(k, data, FrameArg(kwargs), render);
    match inner
    case Success(fig) => Success(fig)
    case Failure(e) => Failure(PlotCreationError(DispatchMessage(plotType), Some(e)))
  }

  /** A tag outside the eight fails, for any table, arguments and renderer. */
  lemma UnknownTagFails(data: Table, plotType: string, kwargs: map<string, Value>, render: Renderer)
    requires plotType !in KnownTags
    ensures CreatePlot(data, plotType, kwargs, render)
            == Failure(PlotCreationError(DispatchMessage(plotType), Some(ValueError(UnsupportedMessage(plotType)))))
  {
  }

  /**
   * `animated_scatter` without a truthy `animation_frame` fails with the same
   * error whatever the renderer would do: no builder and no renderer runs.
   */
  lemma MissingFrameFailsFirst(data: Table, kwargs: map<string, Value>, render: Renderer)
    requires !Truthy(FrameArg(kwargs))
    ensures CreatePlot(data, "animated_scatter", kwargs, render)
            == Failure(PlotCreationError(DispatchMessage("animated_scatter"), Some(ValueError(MissingFrameMessage))))
  {
  }

  /**
   * A known tag with what it needs goes to its own builder: success is that
   * builder's figure, failure wraps that builder's error once more.
   */
  lemma KnownTagRoutesToBuilder(k: PlotKind, data: Table, kwargs: map<string, Value>, render: Renderer)
    requires k == AnimatedScatter ==> Truthy(FrameArg(kwargs))
    ensures var r := CreatePlot(data, TagOf(k), kwargs, render);
            Wraps(r, Build(k, data, FrameArg(kwargs), render), DispatchMessage(TagOf(k)))
  {
    TagRoundTrip(k);
  }

  /** Keyword arguments matter only to `animated_scatter`. */
  lemma ExtraArgumentsIgnored(k: PlotKind, data: Table, kw1: map<string, Value>, kw2: map<string, Value>, render: Renderer)
    requires k != AnimatedScatter
    ensures CreatePlot(data, TagOf(k), kw1, render) == CreatePlot(data, TagOf(k), kw2, render)
  {
    TagRoundTrip(k);
  }

  /** The configuration setting a plotly keyword is read from. */
  function SettingFor(keyword: string): string
  {
    match keyword
    case "x" => "x_column"
    case "y" => "y_column"
    case "z" => "z_column"
    case "lat" => "latitude_column"
    case "lon" => "longitude_column"
    case "hover_name" => "hover_name"
    case "color" => "color_column"
    case "template" => "theme"
    case _ => keyword
  }

  /**
   * Every builder sees only class defaults: apart from the animation frame,
   * each argument it passes is the default of the setting behind that keyword.
   */
  lemma BuildersReadClassDefaults(k: PlotKind, frame: Value, keyword: string)
    requires keyword in BuilderCall(k, frame).args && keyword != "animation_frame"
    ensures SettingFor(keyword) in ClassDefaults
    ensures BuilderCall(k, frame).args[keyword] == ClassDefaults[SettingFor(keyword)]
  {
    if keyword == "title" || keyword == "template" {
    } else {
      match k
      case GeoMap => assert keyword in {"lat", "lon", "hover_name", "color"};
      case Scatter3D => assert keyword in {"x", "y", "z", "color"};
      case Histogram => assert keyword in {"x", "color"};
      case Combined => assert keyword in {"x", "y"};
      case _ => assert keyword in {"x", "y", "color"};
    }
  }

  /** Only the 3D scatter passes a z column. */
  lemma OnlyScatter3DPassesZ(k: PlotKind, frame: Value)
    ensures "z" in BuilderCall(k, frame).args <==> k == Scatter3D
  {
  }

  /** Only the animated scatter passes an animation frame, and it is the caller's. */
  lemma OnlyAnimatedScatterPassesFrame(k: PlotKind, frame: Value)
    ensures "animation_frame" in BuilderCall(k, frame).args <==> k == AnimatedScatter
    ensures k == AnimatedScatter ==> BuilderCall(k, frame).args["animation_frame"] == frame
  {
  }

  /** The plotly call and the keyword arguments of each of the eight builders. */
  lemma BuilderRoles(k: PlotKind, frame: Value)
    ensures var call := BuilderCall(k, frame);
      match k
      case Scatter =>
        call.chart == PxScatter && call.args.Keys == {"x", "y", "color", "title", "template"}
      case Line =>
        call.chart == PxLine && call.args.Keys == {"x", "y", "color", "title", "template"}
      case Histogram =>
        call.chart == PxHistogram && call.args.Keys == {"x", "color", "title", "template"}
      case Box =>
        call.chart == PxBox && call.args.Keys == {"x", "y", "color", "title", "template"}
      case Scatter3D =>
        call.chart == PxScatter3d && call.args.Keys == {"x", "y", "z", "color", "title", "template"}
      case GeoMap =>
        call.chart == PxScatterGeo
        && call.args.Keys == {"lat", "lon", "hover_name", "color", "title", "template"}
      case Combined =>
        call.chart == GoScatterWithRollingMean(5) && call.args.Keys == {"x", "y", "title", "template"}
      case AnimatedScatter =>
        call.chart == PxScatter
        && call.args.Keys == {"x", "y", "color", "animation_frame", "title", "template"}
  {
    match k
    case Scatter =>
    case Line =>
    case Histogram =>
    case Box =>
    case Scatter3D =>
    case GeoMap =>
    case Combined =>
    case AnimatedScatter =>
  }

  /**
   * When the renderer raises, each builder raises `PlotCreationError` with its
   * own message, caused by the renderer's exception.
   */
  lemma BuildFailureMessage(k: PlotKind, data: Table, frame: Value, render: Renderer)
    requires render(data, BuilderCall(k, frame)).Failure?
    ensures var r := Build(k, data, frame, render);
      r.Failure? && r.error.PlotCreationError?
      && r.error.cause == Some(render(data, BuilderCall(k, frame)).error)
      && r.error.message == match k
        case Scatter => "Failed to create scatter plot"
        case Line => "Failed to create line plot"
        case Histogram => "Failed to create histogram"
        case Box => "Failed to create box plot"
        case Scatter3D => "Failed to create 3D scatter plot"
        case GeoMap => "Failed to create geographical map"
        case Combined => "Failed to create combined plot"
        case AnimatedScatter => "Failed to create animated scatter plot"
  {
  }

  /** The histogram passes x and color but no y. */
  lemma HistogramRoles(frame: Value)
    ensures BuilderCall(Histogram, frame).chart == PxHistogram
    ensures BuilderCall(Histogram, frame).args.Keys == {"x", "color", "title", "template"}
  {
    BuilderRoles(Histogram, frame);
  }

  /** The map passes latitude, longitude, hover name and color, and no x or y. */
  lemma GeoMapRoles(frame: Value)
    ensures BuilderCall(GeoMap, frame).chart == PxScatterGeo
    ensures BuilderCall(GeoMap, frame).args.Keys == {"lat", "lon", "hover_name", "color", "title", "template"}
  {
    BuilderRoles(GeoMap, frame);
  }

  /** The combined plot reads only the x and y columns (no color), with a rolling window of 5. */
  lemma CombinedRoles(frame: Value)
    ensures BuilderCall(Combined, frame).chart == GoScatterWithRollingMean(5)
    ensures BuilderCall(Combined, frame).args.Keys == {"x", "y", "title", "template"}
  {
    BuilderRoles(Combined, frame);
  }
}
