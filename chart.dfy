/** The chart's annotation element: the overlay fed with the legend split into
    lines (`DetailsBox(&graph, strings.Split(data.Legend, "\n"))`). */
module Chart {
  import opened Geometry
  import opened Render
  import opened Legend
  import opened Annotation

  /** Everything the annotation element draws for `legend`. */
  function LegendTrace<S>(height: int, legend: string, style: S, m: Measure): seq<Call<S>> {
    Trace(height, Split(legend), style, m)
  }

  /** The element as registered on the chart: the overlay run on the legend's lines. */
  method RenderLegend<S>(r: Renderer<S>, height: int, legend: string, style: S)
    modifies r
    ensures r.calls == old(r.calls) + LegendTrace(height, legend, style, r.measure)
  {
    RenderDetails(r, height, Split(legend), style);
  }

  /** A trailing newline in the legend changes nothing that is drawn. */
  lemma TrailingNewlineIgnored<S>(height: int, legend: string, style: S, m: Measure)
    ensures LegendTrace(height, legend + [Newline], style, m) == LegendTrace(height, legend, style, m)
  {
    var text := Split(legend);
    SplitTrailingNewline(legend);
    BlankLineIgnored(height, text, |text|, style, m);
    assert text[..|text|] + [""] + text[|text|..] == text + [""];
  }

  /** The empty legend is one empty line: only the degenerate panel is drawn. */
  lemma EmptyLegend<S>(height: int, style: S, m: Measure)
    ensures LegendTrace(height, "", style, m) == [BoxCall(Box(height - 10, 50, 60, height), style)]
  {
    DegeneratePanel(height, Split(""), style, m);
  }

  /** Legend "A\nB" with both lines 10 high and 5 and 8 wide: the content is 20
      high and 8 wide, and the two lines sit on baselines 10 apart. */
  lemma TwoLineLegend<S>(height: int, style: S, m: Measure)
    requires m("A") == Extent(5, 10) && m("B") == Extent(8, 10)
    ensures var content := ContentBox(height, Split("A\nB"), m);
      && content.bottom - content.top == 20
      && content.right - content.left == 8
      && LegendTrace(height, "A\nB", style, m)[1..] ==
           [TextCall("A", 55, height - 15), TextCall("B", 55, height - 5)]
  {
    assert Split("A\nB") == ["A", "B"] by {
      assert "A\nB"[1..] == "\nB" && "\nB"[1..] == "B" && "B"[1..] == "";
      assert Split("") == [""] && [""][1..] == [] && ['B'] + "" == "B" && ['A'] + "" == "A";
      assert Split("B") == ["B"];
      assert Split("\nB") == ["", "B"];
    }
    assert NonBlank(["A", "B"]) == ["A", "B"] by {
      assert ["A", "B"][1..] == ["B"] && ["B"][1..] == [];
    }
    assert ["A", "B"][1..] == ["B"] && ["B"][1..] == [];
    assert TotalHeight(["A", "B"], m) == 20;
    assert TextCalls<S>(["B"], 55, height - 15, m) == [TextCall("B", 55, height - 5)];
    assert TextCalls<S>(["A", "B"], 55, height - 25, m) ==
      [TextCall("A", 55, height - 15), TextCall("B", 55, height - 5)];
  }
}
