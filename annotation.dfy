/** The annotation panel overlay (`DetailsBox` in main.go): measures the
    non-empty legend lines, draws a padded panel anchored at the bottom-left of
    the chart, then draws the lines top to bottom inside it. */
module Annotation {
  import opened Geometry
  import opened Render

  type Measure = string -> Extent

  /** Left edge of the panel, in canvas units. */
  const LeftInset: int := 50
  /** Padding between the panel's edges and its content, on every side. */
  const Padding: int := 5

  // ---------------------------------------------------------------------------
  // Specification

  /** The lines that are measured and drawn: the non-empty ones, in order. */
  function NonBlank(text: seq<string>): (lines: seq<string>)
    ensures forall k :: 0 <= k < |lines| ==> lines[k] != ""
    ensures |lines| <= |text|
  {
    if text == [] then []
    else if text[0] == "" then NonBlank(text[1..])
    else [text[0]] + NonBlank(text[1..])
  }

  /** Sum of the measured heights of `lines`. */
  function TotalHeight(lines: seq<string>, m: Measure): nat {
    if lines == [] then 0 else m(lines[0]).height + TotalHeight(lines[1..], m)
  }

  /** The widest measured line of `lines`, or 0 when there is none. */
  function MaxWidth(lines: seq<string>, m: Measure): (w: nat)
    ensures forall k :: 0 <= k < |lines| ==> m(lines[k]).width <= w
    ensures lines == [] ==> w == 0
  {
    if lines == [] then 0 else Max(m(lines[0]).width, MaxWidth(lines[1..], m))
  }

  /** The initial `contentBox`: its bottom at the chart height, its left edge
      at the inset, the other edges at Go's zero value. */
  function Anchor(height: int): Box {
    Box(0, LeftInset, 0, height)
  }

  /** The content box the measuring pass arrives at: lines stacked upwards
      from (55, height - 5), as wide as the widest line. */
  function ContentBox(height: int, text: seq<string>, m: Measure): Box {
    var lines := NonBlank(text);
    Box(height - Padding - TotalHeight(lines, m), LeftInset + Padding,
        LeftInset + Padding + MaxWidth(lines, m), height - Padding)
  }

  /** The panel drawn around `content`: the anchor grown to enclose it, then
      its right and top edges pushed out by the padding. */
  function PanelBox(height: int, content: Box): Box {
    Grow(Anchor(height), content).(right := content.right + Padding, top := content.top - Padding)
  }

  /** The text calls of the drawing pass over `lines`, the cursor starting at
      `y`: each line's baseline is the cursor advanced by that line's height. */
  function TextCalls<S>(lines: seq<string>, x: int, y: int, m: Measure): (calls: seq<Call<S>>)
    ensures |calls| == |lines|
  {
    if lines == [] then []
    else
      var y' := y + m(lines[0]).height;
      [TextCall(lines[0], x, y')] + TextCalls(lines[1..], x, y', m)
  }

  /** Everything one invocation of the overlay draws, in order. */
  function Trace<S>(height: int, text: seq<string>, style: S, m: Measure): seq<Call<S>> {
    var content := ContentBox(height, text, m);
    [BoxCall(PanelBox(height, content), style)] + TextCalls(NonBlank(text), content.left, content.top, m)
  }

  // ---------------------------------------------------------------------------
  // The overlay

  /** The measuring pass: starts a zero-size content box at the anchor and, for
      each non-empty line, raises its top by the line's height and widens its
      right edge to fit the line. */
  method MeasureContent<S>(r: Renderer<S>, height: int, text: seq<string>) returns (content: Box)
    ensures content.bottom == height - Padding && content.left == LeftInset + Padding
    ensures content.bottom - content.top == TotalHeight(NonBlank(text), r.measure)
    ensures content.right - content.left == MaxWidth(NonBlank(text), r.measure)
    ensures content == ContentBox(height, text, r.measure)
  {
    var contentPadding := Box(height, Padding, Padding, height);
    var contentBox := Anchor(height);
    content := Box(contentBox.bottom - Padding, contentBox.left + contentPadding.left,
                   contentBox.left + contentPadding.left, contentBox.bottom - Padding);
    assert text[..0] == [];
    for i := 0 to |text|
      invariant content == ContentBox(height, text[..i], r.measure)
    {
      var t := text[i];
      MeasureStep(height, text, i, r.measure);
      if |t| == 0 {
        continue;
      }
      var textbox := r.MeasureText(t);
      content := content.(top := content.top - textbox.height);
      var right := content.left + textbox.width;
      content := content.(right := Max(content.right, right));
    }
    assert text[..|text|] == text;
  }

  /** The overlay closure: measure, draw the panel, then draw each non-empty
      line with a moving baseline cursor. */
  method RenderDetails<S>(r: Renderer<S>, height: int, text: seq<string>, style: S)
    modifies r
    ensures r.calls == old(r.calls) + Trace(height, text, style, r.measure)
  {
    var content := MeasureContent(r, height, text);
    var contentBox := Anchor(height);
    contentBox := Grow(contentBox, content);
    contentBox := contentBox.(right := content.right + Padding);
    contentBox := contentBox.(top := content.top - Padding);

    r.DrawBox(contentBox, style);
    ghost var drawn := r.calls;

    var ycursor := content.top;
    var x := content.left;
    assert text[..0] == [];
    for i := 0 to |text|
      invariant r.calls == drawn + TextCalls(NonBlank(text[..i]), x, content.top, r.measure)
      invariant ycursor == content.top + TotalHeight(NonBlank(text[..i]), r.measure)
    {
      var t := text[i];
      DrawStep<S>(text, i, x, content.top, r.measure);
      if |t| == 0 {
        continue;
      }
      var textbox := r.MeasureText(t);
      var y := ycursor + textbox.height;
      r.Text(t, x, y);
      ycursor := ycursor + textbox.height;
    }
    assert text[..|text|] == text;
  }

  // ---------------------------------------------------------------------------
  // Lemmas

  lemma {:induction false} NonBlankAppend(a: seq<string>, b: seq<string>)
    ensures NonBlank(a + b) == NonBlank(a) + NonBlank(b)
  {
    if a == [] {
      assert a + b == b;
    } else {
      assert (a + b)[0] == a[0] && (a + b)[1..] == a[1..] + b;
      NonBlankAppend(a[1..], b);
    }
  }

  /** One more line of input adds that line to the drawn lines, unless it is empty. */
  lemma NonBlankSnoc(text: seq<string>, i: nat)
    requires i < |text|
    ensures NonBlank(text[..i + 1]) == NonBlank(text[..i]) + (if text[i] == "" then [] else [text[i]])
  {
    assert text[..i + 1] == text[..i] + [text[i]];
    NonBlankAppend(text[..i], [text[i]]);
  }

  /** One iteration of the measuring pass: an empty line leaves the content box
      alone, any other raises its top by the line's height and widens it to fit. */
  lemma MeasureStep(height: int, text: seq<string>, i: nat, m: Measure)
    requires i < |text|
    ensures var before := ContentBox(height, text[..i], m);
      ContentBox(height, text[..i + 1], m) ==
        if |text[i]| == 0 then before
        else before.(top := before.top - m(text[i]).height,
                     right := Max(before.right, before.left + m(text[i]).width))
  {
    var t := text[i];
    var lines := NonBlank(text[..i]);
    NonBlankSnoc(text, i);
    if |t| == 0 {
      assert lines + [] == lines;
    } else {
      assert [t][1..] == [];
      assert NonBlank(text[..i + 1]) == lines + [t];
      TotalHeightAppend(lines, [t], m);
      MaxWidthAppend(lines, [t], m);
      assert TotalHeight([t], m) == m(t).height;
      assert MaxWidth([t], m) == m(t).width;
    }
  }

  /** One iteration of the drawing pass: an empty line draws nothing, any other
      is drawn one line-height below the cursor, which then moves there. */
  lemma DrawStep<S>(text: seq<string>, i: nat, x: int, y: int, m: Measure)
    requires i < |text|
    ensures var lines := NonBlank(text[..i]);
      var lines' := NonBlank(text[..i + 1]);
      if |text[i]| == 0 then lines' == lines
      else
        && TotalHeight(lines', m) == TotalHeight(lines, m) + m(text[i]).height
        && TextCalls<S>(lines', x, y, m) ==
             TextCalls<S>(lines, x, y, m) + [TextCall(text[i], x, y + TotalHeight(lines, m) + m(text[i]).height)]
  {
    var t := text[i];
    var lines := NonBlank(text[..i]);
    NonBlankSnoc(text, i);
    if |t| == 0 {
      assert lines + [] == lines;
    } else {
      assert [t][1..] == [];
      TotalHeightAppend(lines, [t], m);
      TextCallsAppend<S>(lines, [t], x, y, m);
    }
  }

  lemma {:induction false} TotalHeightAppend(a: seq<string>, b: seq<string>, m: Measure)
    ensures TotalHeight(a + b, m) == TotalHeight(a, m) + TotalHeight(b, m)
  {
    if a == [] {
      assert a + b == b;
    } else {
      assert (a + b)[0] == a[0] && (a + b)[1..] == a[1..] + b;
      TotalHeightAppend(a[1..], b, m);
    }
  }

  lemma {:induction false} MaxWidthAppend(a: seq<string>, b: seq<string>, m: Measure)
    ensures MaxWidth(a + b, m) == Max(MaxWidth(a, m), MaxWidth(b, m))
  {
    if a != [] {
      assert (a + b)[1..] == a[1..] + b;
      MaxWidthAppend(a[1..], b, m);
    } else {
      assert a + b == b;
    }
  }

  lemma {:induction false} TextCallsAppend<S>(a: seq<string>, b: seq<string>, x: int, y: int, m: Measure)
    ensures TextCalls<S>(a + b, x, y, m) == TextCalls<S>(a, x, y, m) + TextCalls<S>(b, x, y + TotalHeight(a, m), m)
  {
    if a == [] {
      assert a + b == b;
    } else {
      assert (a + b)[1..] == a[1..] + b;
      TextCallsAppend<S>(a[1..], b, x, y + m(a[0]).height, m);
    }
  }

  /** The k-th text call draws the k-th line at x, on the baseline that lies the
      heights of lines 0..k below the starting cursor. */
  lemma {:induction false} TextCallsAt<S>(lines: seq<string>, x: int, y: int, m: Measure, k: nat)
    requires k < |lines|
    ensures TextCalls<S>(lines, x, y, m)[k] == TextCall(lines[k], x, y + TotalHeight(lines[..k + 1], m))
  {
    if k == 0 {
      assert lines[..1][1..] == [];
    } else {
      TextCallsAt<S>(lines[1..], x, y + m(lines[0]).height, m, k - 1);
      assert lines[..k + 1][1..] == lines[1..][..k];
    }
  }

  /** Heights are never negative, so the sum over a prefix never exceeds the
      sum over a longer prefix. */
  lemma PrefixHeightMonotone(lines: seq<string>, j: nat, k: nat, m: Measure)
    requires j <= k <= |lines|
    ensures TotalHeight(lines[..j], m) <= TotalHeight(lines[..k], m)
  {
    assert lines[..k] == lines[..j] + lines[j..k];
    TotalHeightAppend(lines[..j], lines[j..k], m);
  }

  /** The measuring pass: the content box is anchored 5 above the chart's
      bottom at x = 55, as tall as the sum and as wide as the maximum of the
      measured non-empty lines. */
  lemma ContentBoxSize(height: int, text: seq<string>, m: Measure)
    ensures var content := ContentBox(height, text, m);
      && content.bottom == height - Padding
      && content.left == LeftInset + Padding
      && content.bottom - content.top == TotalHeight(NonBlank(text), m)
      && content.right - content.left == MaxWidth(NonBlank(text), m)
      && (forall t :: t in text && t != "" ==> m(t).width <= content.right - content.left)
  {
    var lines := NonBlank(text);
    NonBlankMembers(text);
    forall t | t in text && t != "" ensures m(t).width <= MaxWidth(lines, m) {
      var k :| 0 <= k < |lines| && lines[k] == t;
    }
  }

  /** The panel encloses the content with 5 units of padding on every side. */
  lemma PanelPadding(height: int, text: seq<string>, m: Measure)
    ensures var content := ContentBox(height, text, m);
      var panel := PanelBox(height, content);
      && Encloses(panel, content)
      && panel.right == content.right + Padding
      && panel.top == content.top - Padding
      && panel.left == LeftInset == content.left - Padding
      && panel.bottom == height == content.bottom + Padding
  {
  }

  /** Inserting an empty line anywhere changes neither the content box nor
      anything that is drawn. */
  lemma BlankLineIgnored<S>(height: int, text: seq<string>, k: nat, style: S, m: Measure)
    requires k <= |text|
    ensures ContentBox(height, text[..k] + [""] + text[k..], m) == ContentBox(height, text, m)
    ensures Trace(height, text[..k] + [""] + text[k..], style, m) == Trace(height, text, style, m)
  {
    NonBlankAppend(text[..k] + [""], text[k..]);
    NonBlankAppend(text[..k], [""]);
    assert [""][1..] == [];
    assert NonBlank(text[..k]) + [] == NonBlank(text[..k]);
    NonBlankAppend(text[..k], text[k..]);
    assert text[..k] + text[k..] == text;
  }

  /** The maximum width is attained: some line is exactly that wide. */
  lemma {:induction false} MaxWidthAttained(lines: seq<string>, m: Measure)
    requires lines != []
    ensures exists k :: 0 <= k < |lines| && m(lines[k]).width == MaxWidth(lines, m)
  {
    if |lines| > 1 && MaxWidth(lines, m) != m(lines[0]).width {
      MaxWidthAttained(lines[1..], m);
      var k :| 0 <= k < |lines[1..]| && m(lines[1..][k]).width == MaxWidth(lines[1..], m);
      assert lines[k + 1] == lines[1..][k];
    }
  }

  /** The drawn lines are exactly the non-empty lines of the input. */
  lemma {:induction false} NonBlankMembers(text: seq<string>)
    ensures forall t :: t in NonBlank(text) <==> t in text && t != ""
  {
    if text != [] {
      NonBlankMembers(text[1..]);
      assert text == [text[0]] + text[1..];
    }
  }

  lemma {:induction false} AllBlank(text: seq<string>)
    requires forall k :: 0 <= k < |text| ==> text[k] == ""
    ensures NonBlank(text) == []
  {
    if text != [] {
      AllBlank(text[1..]);
    }
  }

  /** With no non-empty line no text is drawn, and the panel is the degenerate
      box from (50, height - 10) to (60, height). */
  lemma DegeneratePanel<S>(height: int, text: seq<string>, style: S, m: Measure)
    requires forall k :: 0 <= k < |text| ==> text[k] == ""
    ensures Trace(height, text, style, m) == [BoxCall(Box(height - 10, 50, 60, height), style)]
  {
    AllBlank(text);
    var lines := NonBlank(text);
    assert TextCalls<S>(lines, LeftInset + Padding, height - Padding, m) == [];
  }

  /** The drawing order: the panel first and only once, then one text call per
      non-empty line in input order, at x = 55, the k-th baseline lying the
      heights of the first k lines below the content top. */
  lemma DrawOrder<S>(height: int, text: seq<string>, style: S, m: Measure)
    ensures var content := ContentBox(height, text, m);
      var lines := NonBlank(text);
      var trace := Trace(height, text, style, m);
      && |trace| == |lines| + 1
      && trace[0] == BoxCall(PanelBox(height, content), style)
      && forall k :: 1 <= k < |trace| ==>
           trace[k] == TextCall(lines[k - 1], content.left, content.top + TotalHeight(lines[..k], m))
  {
    var content := ContentBox(height, text, m);
    var lines := NonBlank(text);
    var trace := Trace(height, text, style, m);
    forall k | 1 <= k < |trace|
      ensures trace[k] == TextCall(lines[k - 1], content.left, content.top + TotalHeight(lines[..k], m))
    {
      TextCallsAt<S>(lines, content.left, content.top, m, k - 1);
    }
  }

  /** Baselines never move up, and the last one lies on the content's bottom edge. */
  lemma BaselinesDescend<S>(height: int, text: seq<string>, style: S, m: Measure)
    ensures var content := ContentBox(height, text, m);
      var trace := Trace(height, text, style, m);
      && (forall k :: 1 <= k < |trace| ==> trace[k].TextCall?)
      && (forall j, k :: 1 <= j <= k < |trace| ==> trace[j].y <= trace[k].y)
      && (|trace| > 1 ==> trace[|trace| - 1].y == content.bottom)
  {
    var content := ContentBox(height, text, m);
    var lines := NonBlank(text);
    var trace := Trace(height, text, style, m);
    DrawOrder(height, text, style, m);
    forall j, k | 1 <= j <= k < |trace| ensures trace[j].y <= trace[k].y {
      PrefixHeightMonotone(lines, j, k, m);
    }
    assert lines[..|lines|] == lines;
  }
}
