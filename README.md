# my_interactive_plots: a Dafny model of plot dispatch, report assembly and settings

This project models the logic in `my_interactive_plots` that routes requests and assembles results around
plotly, pandas and weasyprint:

- **`plots.py`** (module `Plots`): `create_plot` maps one of eight plot-type tags to its builder.
  For `animated_scatter` it requires a truthy `animation_frame` keyword argument.
  Every failure becomes a `PlotCreationError` that names the tag and keeps the inner exception as its cause.
  Each `create_*` builder reads its roles from a fresh `Config()`. Its plotly and pandas calls are abstracted as one `RenderCall`.
  It returns the figure unchanged, or re-raises the renderer's exception as a `PlotCreationError` with its own message.
  Plotly itself is a function parameter, `Renderer`, that returns an opaque `Figure` or an exception.
- **`report_generator.py`** (module `ReportGenerator`): `generate_report` calls `create_plot` once per tag, in order.
  It builds the page as a fixed header, then `<h2>` + capitalized tag + ` Plot</h2>` and the figure's fragment for each tag, then a footer.
  It calls the PDF writer only after every plot succeeded.
  `GenerateReport` is a method whose loop invariant ties the HTML accumulator to `Sections` of the processed prefix.
- **`config.py`** (module `Config`): `Config` is a class whose field `own` is the instance's `__dict__`.
  Reads fall back to the class defaults. `save_to_file` returns `own`. `load_from_file` merges a map into `own` the way `dict.update` does.
  A JSON file is modelled by the map it holds.
- **`data_loader.py`** (module `DataLoader`): `load_data` picks the CSV reader or the Excel reader from the path's suffix.
  Any other suffix raises `ValueError`.
- `exceptions.py` is not part of this model. Module `Exceptions` gives `PlotCreationError` a message and an optional cause (`raise ... from e`).
- Module `Scenarios` assumes a renderer that rejects any role naming a missing column.
  Under that assumption it shows what the builders' role choices mean for a table with only the iris sepal and species columns.

Behaviour worth knowing:

- `save_to_file` writes only the instance's own attributes. Class defaults that were never assigned are not written.
- `load_from_file` merges into the current settings and raises no dedicated configuration error.
- No builder checks columns before rendering. A missing column fails inside the builder's `RenderCall` and is wrapped like any other renderer failure. For `create_combined_plot` this is pandas' `KeyError` on `data[config.x_column]`.
- A failing PDF write is wrapped into a `PlotCreationError` with the writer's exception as its cause. The message is "Failed to generate report", or the import message when the writer raises an `ImportError`.
- `generate_report` passes no keyword arguments to `create_plot`, so a report that lists `animated_scatter` always fails (`AnimatedScatterNeverReported`).

## Model

| member | source | states |
|---|---|---|
| `Config.Config.constructor` | my_interactive_plots/config.py:5-18 | a new `Config()` has no instance attributes, and every read yields the class default (or nothing for an unknown name) |
| `Config.Config.Get` | my_interactive_plots/config.py:9-18 | reading a setting gives the instance's value if it set one, else the class default; it is absent only when neither has it |
| `Config.Truthy` | my_interactive_plots/plots.py:271-272 | a setting value is falsy exactly when it is null, the empty string, zero or false, as Python's truth test judges the `animation_frame` argument |
| `Config.Lookup` | my_interactive_plots/config.py:9-18 | an attribute read resolves in the class defaults overlaid with the instance's own attributes; it is absent only when neither layer has the name |
| `Config.Merge` | my_interactive_plots/config.py:40 | `dict.update`: the keys are both maps' keys, a key in the file takes the file's value, any other key keeps the instance's value |
| `Config.FreshRead` | my_interactive_plots/config.py:9-18 | a fresh instance reads exactly the class default of a known setting |
| `Config.FreshReadsDefaults` | my_interactive_plots/config.py:9-18 | a fresh instance's reads are defined exactly for the ten class defaults, and each reads its default |
| `Config.Config.SaveToFile` | my_interactive_plots/config.py:20-29 | the saved mapping has exactly the instance's own keys and values; class defaults are not written |
| `Config.Config.LoadFromFile` | my_interactive_plots/config.py:31-40 | the instance map becomes old map merged with the file; file keys read as the file's values, every other read is unchanged; nothing is validated |
| `Config.MergeLookup` | my_interactive_plots/config.py:38-40 | after a merge a key in the file reads the file's value, any other key reads what it read before, and unknown keys are added |
| `Config.MergeIdempotent` | my_interactive_plots/config.py:40 | loading the same mapping twice equals loading it once |
| `Config.LoadIntoFreshRoundTrip` | my_interactive_plots/config.py:27-40 | loading a saved mapping into a fresh instance reproduces that mapping |
| `Config.SaveThenLoadFresh` | my_interactive_plots/config.py:27-40 | save on one instance then load into a new one gives the same instance map and the same value for every setting read |
| `DataLoader.SelectReader` | my_interactive_plots/data_loader.py:14-19 | CSV exactly when the path ends in `.csv`, Excel exactly when it ends in `.xls` or `.xlsx`, else `ValueError` with the source's message |
| `DataLoader.LoadData` | my_interactive_plots/data_loader.py:4-19 | the result is the chosen reader's result; a rejected path yields the `ValueError` whatever the readers would do |
| `DataLoader.EndsWith` | my_interactive_plots/data_loader.py:14-16 | `str.endswith`: the suffix fits in the path and matches its last characters one by one |
| `DataLoader.EndsWithIff` | my_interactive_plots/data_loader.py:14-16 | the suffix test holds exactly when the path is some prefix followed by the suffix |
| `DataLoader.ExtensionSelectsReader` | my_interactive_plots/data_loader.py:14-17 | any name followed by `.csv`, `.xls` or `.xlsx` selects the matching reader |
| `DataLoader.SuffixTestIsExact` | my_interactive_plots/data_loader.py:14-16 | the test is case-sensitive and anchored at the end: `DATA.CSV`, `a.csv.bak` and `book.XLSX` are rejected |
| `DataLoader.SuffixesExclusive` | my_interactive_plots/data_loader.py:14-19 | no path fits both the CSV and an Excel suffix, so exactly one branch is taken |
| `Plots.ParseTag` | my_interactive_plots/plots.py:256-276 | a tag selects a plot type exactly when it is one of the eight known tags, and then the plot type with that tag |
| `Plots.TagRoundTrip` | my_interactive_plots/plots.py:256-274 | every plot type's own tag selects that plot type |
| `Plots.BuilderCall` | my_interactive_plots/plots.py:29-236 | every builder passes the class title and the class theme (as `template`); the rolling-mean `go.Scatter` chart is used exactly by the combined plot |
| `Plots.FrameArg` | my_interactive_plots/plots.py:271-272 | `kwargs.get('animation_frame')`: the caller's value when given, and it is falsy exactly when the argument is missing or falsy |
| `Plots.Build` | my_interactive_plots/plots.py:16-240 | a builder returns the renderer's figure unchanged, or a `PlotCreationError` with its own plot-specific message whose cause is the renderer's exception |
| `Plots.CreatePlot` | my_interactive_plots/plots.py:242-279 | every failure is a `PlotCreationError` whose message names the requested tag and which carries a cause; a success is a known tag and exactly the figure the renderer returned for that builder's call |
| `Plots.UnknownTagFails` | my_interactive_plots/plots.py:275-279 | a tag outside the eight fails with `PlotCreationError` caused by `ValueError("Unsupported plot type: ...")`, for any table and renderer |
| `Plots.MissingFrameFailsFirst` | my_interactive_plots/plots.py:270-274 | `animated_scatter` with a missing or falsy `animation_frame` fails with the same error whatever the renderer does, so no builder runs |
| `Plots.KnownTagRoutesToBuilder` | my_interactive_plots/plots.py:256-279 | a known tag (with a frame when animated) is handled by its own builder; success passes its figure through and failure wraps its error once more |
| `Plots.ExtraArgumentsIgnored` | my_interactive_plots/plots.py:256-274 | keyword arguments change nothing for every tag except `animated_scatter` |
| `Plots.BuildersReadClassDefaults` | my_interactive_plots/plots.py:26-236 | every argument a builder passes except the animation frame is the class default of the matching setting, so no edited or loaded instance reaches a builder |
| `Plots.OnlyScatter3DPassesZ` | my_interactive_plots/plots.py:132-139 | a builder passes a z column exactly when it is the 3D scatter |
| `Plots.OnlyAnimatedScatterPassesFrame` | my_interactive_plots/plots.py:214-236 | only the animated scatter passes `animation_frame`, and it passes the caller's value |
| `Plots.BuilderRoles` | my_interactive_plots/plots.py:29-236 | for each of the eight builders, the plotly call it makes (`px.scatter`, `px.line`, `px.histogram`, `px.box`, `px.scatter_3d`, `px.scatter_geo`, `go.Scatter` with a rolling mean of 5, `px.scatter` with a frame) and exactly the keyword arguments it passes |
| `Plots.BuildFailureMessage` | my_interactive_plots/plots.py:38-240 | when the renderer raises, each of the eight builders raises `PlotCreationError` with its own message (`Failed to create scatter plot`, ... `Failed to create animated scatter plot`) and the renderer's exception as cause |
| `Plots.HistogramRoles` | my_interactive_plots/plots.py:81-87 | the histogram calls `px.histogram` with x, color, title and template, and no y |
| `Plots.GeoMapRoles` | my_interactive_plots/plots.py:159-167 | the map calls `px.scatter_geo` with lat, lon, hover name, color, title and template, and no x or y |
| `Plots.CombinedRoles` | my_interactive_plots/plots.py:186-207 | the combined plot uses only the x and y columns (no color) plus title and template, with a rolling window of 5 |
| `ReportGenerator.Capitalize` | my_interactive_plots/report_generator.py:28 | same length, first character upper-cased, every other character lower-cased |
| `ReportGenerator.Heading` | my_interactive_plots/report_generator.py:28 | a section heading is `<h2>`, the tag with its first character upper-cased and the rest lower-cased, then ` Plot</h2>` |
| `ReportGenerator.Sections` | my_interactive_plots/report_generator.py:25-29 | the sections of a tag list are produced exactly when every tag's plot succeeds |
| `ReportGenerator.ReportHtml` | my_interactive_plots/report_generator.py:22-31 | the page exists exactly when `create_plot` succeeds for every listed tag, and then starts with the fixed header and ends with the footer |
| `ReportGenerator.ReportError` | my_interactive_plots/report_generator.py:35-40 | every failure leaves as a `PlotCreationError` caused by the original exception; the message is the import message exactly for an `ImportError` and `Failed to generate report` for every other exception |
| `ReportGenerator.GenerateReport` | my_interactive_plots/report_generator.py:14-40 | the PDF writer is called, with the full page and the report path, exactly when the import and every `create_plot` call succeeded; otherwise the first failure is re-raised wrapped, and a writer failure is wrapped the same way |
| `ReportGenerator.FailureExtends` | my_interactive_plots/report_generator.py:25-26 | once a prefix of the tags fails, the whole report fails with that same exception |
| `ReportGenerator.SectionsFailure` | my_interactive_plots/report_generator.py:25-26 | the sections fail exactly when some tag's `create_plot` fails, and then with the exception of the first failing tag |
| `ReportGenerator.SectionsAppend` | my_interactive_plots/report_generator.py:25-29 | the sections of two tag lists joined are the two sections joined: one section per entry, in order |
| `ReportGenerator.SectionsSingle` | my_interactive_plots/report_generator.py:26-29 | one tag gives its heading immediately followed by its figure's fragment |
| `ReportGenerator.RepeatedTagRendersTwice` | my_interactive_plots/report_generator.py:25-29 | a repeated tag renders its section twice, not deduplicated (identical up to plotly's per-call element id, see Left out) |
| `ReportGenerator.AnimatedScatterNeverReported` | my_interactive_plots/report_generator.py:26 | a report listing `animated_scatter` always fails, since it passes no animation frame |
| `ReportGenerator.EmptyReport` | my_interactive_plots/report_generator.py:22-31 | with no tags the page is exactly the header followed by the footer |
| `Scenarios.IrisScatterBut3dFails` | my_interactive_plots/plots.py:130-140 | with a column-checking renderer, a table with only sepal_length, sepal_width and species gets a scatter plot but the 3D scatter fails on its `petal_length` z role |
| `Scenarios.IrisScatterCallDraws` | my_interactive_plots/plots.py:29-36 | the scatter plot's call names only `sepal_width`, `sepal_length` and `species`, so the column-checking renderer draws it on the iris table |
| `Scenarios.IrisCubeCallFails` | my_interactive_plots/plots.py:132-140 | the 3D scatter's call names `petal_length` as its z role, so the column-checking renderer rejects it on the iris table |
| `Scenarios.IrisReportWithMapFails` | my_interactive_plots/report_generator.py:25-33 | with the same renderer and table, a report of a scatter plot and a map fails, so no PDF is written |

## Left out

- Plotly figure construction and everything inside `px.*`, `go.Figure`, `add_trace` and `update_layout`: a `Renderer` parameter that returns an opaque figure or raises. Whether a missing column makes it fail is the renderer's behaviour.
- The rolling mean of the combined plot: floating-point numerics, represented only by its window of 5 in the render call.
- `fig.to_html(full_html=False)`: a total function from figure to fragment. The model does not let it raise.
- Fragments, and so the whole page, are modelled up to plotly's per-call element id. Plotly puts a fresh random `div` id in each `to_html` output, so two calls on the same figure differ in that id. The model's `toHtml` is deterministic, so `RepeatedTagRendersTwice` and `GenerateReport` describe the page with the ids abstracted away.
- weasyprint's `write_pdf`: a parameter that succeeds or raises. The model records the call it receives.
- Whether `from .plots import create_plot` succeeds: a parameter of `GenerateReport`.
- `generate_profile_report`: a pass-through to pandas_profiling.
- JSON encoding and file I/O in `Config`: a file is the map it holds. Missing or malformed files, and a JSON document that is not an object, are not modelled.
- Setting values are strings, integers, booleans or null. Floats, lists and nested objects that JSON could carry are left out, and so is their truthiness for `animation_frame`.
- Python attribute lookup of the class's own methods, such as `config.save_to_file`: `Config.Lookup` covers only the instance attributes and the ten class-level settings.
- The ten class-level settings are constants. Assigning a class attribute (`Config.theme = ...`) is not modelled, although every later `Config()`, and so every builder, would read the new value.
- `Capitalize`: ASCII case mapping only. Python's Unicode title-casing of the first character is not modelled.
- `pd.read_csv`, `pd.read_excel` and `load_data_from_db`: a reader parameter and database I/O.
- `cli.py`, a click command shell. It catches every error, prints `Error: ...` and does not set a non-zero exit status.
- `web_app.py`, the example script, `setup.py`, and all logging (`setup_logging`, `logger.*`).
