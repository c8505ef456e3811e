/**
 * `report_generator.generate_report`: render each requested plot type in
 * order, stack the fragments under headings in one HTML page, and hand the page
 * to the PDF writer only when every plot was created.
 *
 * `fig.to_html(full_html=False)` and weasyprint's `write_pdf` are foreign code:
 * `toHtml` gives an opaque fragment, `writePdf` succeeds or raises. Whether
 * `from .plots import create_plot` succeeds is the parameter `importPlots`.
 */
module ReportGenerator {
  import opened Wrappers
  import opened Exceptions
  import opened Config
  import opened Plots

  /** ASCII `str.upper` of one character. */
  function Upper(c: char): char
  {
    if 'a' <= c <= 'z' then (c as int - 32) as char else c
  }

  /** ASCII `str.lower` of one character. */
  function Lower(c: char): char
  {
    if 'A' <= c <= 'Z' then (c as int + 32) as char else c
  }

  function LowerAll(s: string): (r: string)
    ensures |r| == |s|
    ensures forall i :: 0 <= i < |s| ==> r[i] == Lower(s[i])
  {
    if s == [] then [] else [Lower(s[0])] + LowerAll(s[1..])
  }

  /** `str.capitalize`: first character upper-cased, every other one lower-cased. */
  function Capitalize(s: string): (r: string)
    ensures |r| == |s|
    ensures |s| > 0 ==> r[0] == Upper(s[0])
    ensures forall i :: 0 < i < |s| ==> r[i] == Lower(s[i])
  {
    if s == [] then [] else [Upper(s[0])] + LowerAll(s[1..])
  }

  const Header := "<html><head><title>Data Report</title></head><body>" + "<h1>Data Report</h1>"
  const Footer := "</body></html>"

  /** The heading placed above one plot type's figure. */
  function Heading(plotType: string): (r: string)
    ensures |r| == |plotType| + 14
    ensures r[..4] == "<h2>" && r[|r| - 10..] == " Plot</h2>"
    ensures |plotType| > 0 ==> r[4] == Upper(plotType[0])
    ensures forall i :: 0 < i < |plotType| ==> r[4 + i] == Lower(plotType[i])
  {
    "<h2>" + Capitalize(plotType) + " Plot</h2>"
  }

  /** What `create_plot(data, t)` gives for each plot type `t` (no keyword arguments). */
  type Plotter = string -> Result<Figure, Exception>

  /** The plotter `generate_report` uses: `create_plot` on the report's table. */
  function PlotterFor(data: Table, render: Renderer): (plot: Plotter)
  {
    t => CreatePlot(data, t, map[], render)
  }

  /**
   * The body sections for `plotTypes` (one heading and fragment per entry, in
   * order), or the exception of the first plot that fails.
   */
  function Sections(plotTypes: seq<string>, plot: Plotter, toHtml: Figure -> string)
    : (r: Result<string, Exception>)
    ensures r.Success? <==> forall i :: 0 <= i < |plotTypes| ==> plot(plotTypes[i]).Success?
    decreases |plotTypes|
  {
    if plotTypes == [] then Success("")
    else
      var last := plotTypes[|plotTypes| - 1];
      assert forall i :: 0 <= i < |plotTypes| - 1 ==> plotTypes[..|plotTypes| - 1][i] == plotTypes[i];
      match Sections(plotTypes[..|plotTypes| - 1], plot, toHtml)
      case Failure(e) => Failure(e)
      case Success(done) =>
        match plot(last)
        case Failure(e) => Failure(e)
        case Success(fig) => Success(done + Heading(last) + toHtml(fig))
  }

  /** The whole page handed to the PDF writer, or the first failure. */
  function ReportHtml(data: Table, plotTypes: seq<string>, render: Renderer, toHtml: Figure -> string)
    : (r: Result<string, Exception>)
    ensures r.Success? <==> forall i :: 0 <= i < |plotTypes| ==> CreatePlot(data, plotTypes[i], map[], render).Success?
    ensures r.Success? ==> |Header| + |Footer| <= |r.value|
    ensures r.Success? ==> r.value[..|Header|] == Header && r.value[|r.value| - |Footer|..] == Footer
  {
    match Sections(plotTypes, PlotterFor(data, render), toHtml)
    case Success(body) =>
      FramedPage(body);
      Success(Header + body + Footer)
    case Failure(e) => Failure(e)
  }

  /** The page starts with the header and ends with the footer. */
  lemma FramedPage(body: string)
    ensures |Header| + |Footer| <= |Header + body + Footer|
    ensures (Header + body + Footer)[..|Header|] == Header
    ensures (Header + body + Footer)[|Header + body + Footer| - |Footer|..] == Footer
  {
  }

  const ImportFailureMessage := "Failed to import necessary modules for report generation"
  const ReportFailureMessage := "Failed to generate report"

  /** The two `except` clauses of `generate_report`. */
  function ReportError(e: Exception): (r: Exception)
    ensures r.PlotCreationError? && r.cause == Some(e)
    ensures r.message == ImportFailureMessage <==> e.ImportError?
    ensures !e.ImportError? ==> r.message == ReportFailureMessage
  {
    if e.ImportError? then PlotCreationError(ImportFailureMessage, Some(e))
    else PlotCreationError(ReportFailureMessage, Some(e))
  }

  /** A call made to the PDF writer: the page and the output path. */
  datatype PdfWrite = PdfWrite(html: string, path: string)

  /**
   * `generate_report(data, plot_types, report_file)`. `pdfCall` is the call
   * made to the PDF writer, if one was made; `r` is how the function ended.
   */
  method GenerateReport(data: Table, plotTypes: seq<string>, reportFile: string,
                        importPlots: Option<Exception>, render: Renderer,
                        toHtml: Figure -> string, writePdf: (string, string) -> Option<Exception>)
    returns (pdfCall: Option<PdfWrite>, r: Outcome<Exception>)
    ensures pdfCall.Some? <==> importPlots.None? && ReportHtml(data, plotTypes, render, toHtml).Success?
    ensures pdfCall.Some? ==> pdfCall.value == PdfWrite(ReportHtml(data, plotTypes, render, toHtml).value, reportFile)
    ensures importPlots.Some? ==> r == Fail(ReportError(importPlots.value))
    ensures importPlots.None? && ReportHtml(data, plotTypes, render, toHtml).Failure? ==>
              r == Fail(ReportError(ReportHtml(data, plotTypes, render, toHtml).error))
    ensures pdfCall.Some? ==> r == match writePdf(pdfCall.value.html, reportFile)
                                    case None => Pass
                                    case Some(e) => Fail(ReportError(e))
  {
    if importPlots.Some? {
      return None, Fail(ReportError(importPlots.value));
    }
    ghost var plot := PlotterFor(data, render);
    var html := "<html><head><title>Data Report</title></head><body>";
    html := html + "<h1>Data Report</h1>";
    var i := 0;
    while i < |plotTypes|
      invariant 0 <= i <= |plotTypes|
      invariant Sections(plotTypes[..i], plot, toHtml).Success?
      invariant html == Header + Sections(plotTypes[..i], plot, toHtml).value
    {
      var fig := CreatePlot(data, plotTypes[i], map[], render);
      assert plotTypes[..i + 1][..i] == plotTypes[..i];
      assert fig == plot(plotTypes[i]);
      if fig.Failure? {
        FailureExtends(plotTypes, i + 1, plot, toHtml);
        return None, Fail(ReportError(fig.error));
      }
      var fragment := toHtml(fig.value);
      ConcatAssoc(Header, Sections(plotTypes[..i], plot, toHtml).value, Heading(plotTypes[i]));
      html := html + Heading(plotTypes[i]);
      ConcatAssoc(Header, Sections(plotTypes[..i], plot, toHtml).value + Heading(plotTypes[i]), fragment);
      html := html + fragment;
      i := i + 1;
    }
    assert plotTypes[..i] == plotTypes;
    html := html + Footer;
    pdfCall := Some(PdfWrite(html, reportFile));
    r := match writePdf(html, reportFile)
      case None => Pass
      case Some(e) => Fail(ReportError(e));
  }

  /** Once a prefix fails, every extension fails with the same exception. */
  lemma {:induction false} FailureExtends(plotTypes: seq<string>, n: nat, plot: Plotter, toHtml: Figure -> string)
    requires n <= |plotTypes|
    requires Sections(plotTypes[..n], plot, toHtml).Failure?
    ensures Sections(plotTypes, plot, toHtml) == Sections(plotTypes[..n], plot, toHtml)
    decreases |plotTypes| - n
  {
    if n < |plotTypes| {
      var longer := plotTypes[..n + 1];
      assert longer[..n] == plotTypes[..n];
      FailureExtends(plotTypes, n + 1, plot, toHtml);
    } else {
      assert plotTypes[..n] == plotTypes;
    }
  }

  /**
   * Sections of a concatenated list are the concatenated sections: every entry
   * gets its own section, in order, and a repeated tag renders twice.
   */
  lemma {:induction false} SectionsAppend(a: seq<string>, b: seq<string>, plot: Plotter, toHtml: Figure -> string)
    requires Sections(a, plot, toHtml).Success? && Sections(b, plot, toHtml).Success?
    ensures Sections(a + b, plot, toHtml)
            == Success(Sections(a, plot, toHtml).value + Sections(b, plot, toHtml).value)
    decreases |b|
  {
    if b == [] {
      assert a + b == a;
      assert Sections(b, plot, toHtml).value == "";
      assert Sections(a, plot, toHtml).value + "" == Sections(a, plot, toHtml).value;
    } else {
      var front, last := b[..|b| - 1], b[|b| - 1];
      SectionsAppend(a, front, plot, toHtml);
      SectionsStep(a, b, plot, toHtml);
      var sa, sf := Sections(a, plot, toHtml).value, Sections(front, plot, toHtml).value;
      var piece := Heading(last) + toHtml(plot(last).value);
      ConcatAssoc(sf, Heading(last), toHtml(plot(last).value));
      ConcatAssoc(sa + sf, Heading(last), toHtml(plot(last).value));
      ConcatAssoc(sa, sf, piece);
    }
  }

  /** String concatenation is associative (kept apart so that the proofs using it stay small). */
  lemma ConcatAssoc(x: string, y: string, z: string)
    ensures (x + y) + z == x + (y + z)
  {
  }

  /** Unfolding `Sections` once on a concatenation whose last part is not empty. */
  lemma SectionsStep(a: seq<string>, b: seq<string>, plot: Plotter, toHtml: Figure -> string)
    requires b != []
    requires Sections(a + b[..|b| - 1], plot, toHtml).Success? && plot(b[|b| - 1]).Success?
    ensures Sections(a + b, plot, toHtml)
            == Success(Sections(a + b[..|b| - 1], plot, toHtml).value + Heading(b[|b| - 1]) + toHtml(plot(b[|b| - 1]).value))
  {
    assert (a + b)[..|a + b| - 1] == a + b[..|b| - 1];
    assert (a + b)[|a + b| - 1] == b[|b| - 1];
  }

  /** A one-entry list gives its heading followed by its figure's fragment. */
  lemma SectionsSingle(plotType: string, plot: Plotter, toHtml: Figure -> string)
    ensures Sections([plotType], plot, toHtml)
            == match plot(plotType)
               case Failure(e) => Failure(e)
               case Success(fig) => Success(Heading(plotType) + toHtml(fig))
  {
    assert [plotType][..0] == [];
    assert Sections([], plot, toHtml) == Success("");
    match plot(plotType)
    case Failure(_) =>
    case Success(fig) =>
      assert "" + Heading(plotType) + toHtml(fig) == Heading(plotType) + toHtml(fig);
  }

  /** The same tag twice renders the same section twice. */
  lemma RepeatedTagRendersTwice(plotType: string, plot: Plotter, toHtml: Figure -> string)
    requires plot(plotType).Success?
    ensures Sections([plotType, plotType], plot, toHtml)
            == Success(Heading(plotType) + toHtml(plot(plotType).value)
                     + Heading(plotType) + toHtml(plot(plotType).value))
  {
    SectionsSingle(plotType, plot, toHtml);
    SectionsAppend([plotType], [plotType], plot, toHtml);
    assert [plotType] + [plotType] == [plotType, plotType];
  }

  /** The position of the first entry whose plot fails, or `|plotTypes|` when none does. */
  function FirstFailing(plotTypes: seq<string>, plot: Plotter): (k: nat)
    ensures k <= |plotTypes|
    ensures forall j :: 0 <= j < k ==> plot(plotTypes[j]).Success?
    ensures k < |plotTypes| ==> plot(plotTypes[k]).Failure?
  {
    if plotTypes == [] then 0
    else if plot(plotTypes[0]).Failure? then 0
    else 1 + FirstFailing(plotTypes[1..], plot)
  }

  /**
   * The sections fail exactly when some entry fails, and then with the
   * exception of the first failing entry.
   */
  lemma {:induction false} SectionsFailure(plotTypes: seq<string>, plot: Plotter, toHtml: Figure -> string)
    ensures Sections(plotTypes, plot, toHtml).Failure? <==> FirstFailing(plotTypes, plot) < |plotTypes|
    ensures Sections(plotTypes, plot, toHtml).Failure?
            ==> Sections(plotTypes, plot, toHtml).error == plot(plotTypes[FirstFailing(plotTypes, plot)]).error
    decreases |plotTypes|
  {
    if plotTypes != [] {
      var n := |plotTypes| - 1;
      var front := plotTypes[..n];
      SectionsFailure(front, plot, toHtml);
      var k, kf := FirstFailing(plotTypes, plot), FirstFailing(front, plot);
      assert forall j :: 0 <= j < n ==> front[j] == plotTypes[j];
      if kf < n {
        assert plot(plotTypes[kf]).Failure?;
        assert k == kf;
      } else if plot(plotTypes[n]).Failure? {
        assert k == n;
      } else {
        assert k == n + 1;
      }
    }
  }

  /** A report naming `animated_scatter` never reaches the PDF writer: the report passes no animation frame. */
  lemma AnimatedScatterNeverReported(data: Table, plotTypes: seq<string>, render: Renderer, toHtml: Figure -> string)
    requires "animated_scatter" in plotTypes
    ensures ReportHtml(data, plotTypes, render, toHtml).Failure?
  {
    var i :| 0 <= i < |plotTypes| && plotTypes[i] == "animated_scatter";
    var plot := PlotterFor(data, render);
    MissingFrameFailsFirst(data, map[], render);
    assert plot(plotTypes[i]).Failure?;
    SectionsFailure(plotTypes, plot, toHtml);
  }

  /** With no plot types the page is the header followed by the footer. */
  lemma EmptyReport(data: Table, render: Renderer, toHtml: Figure -> string)
    ensures ReportHtml(data, [], render, toHtml) == Success(Header + Footer)
  {
    assert Sections([], PlotterFor(data, render), toHtml) == Success("");
    assert Header + "" == Header;
  }
}
