# mkchart annotation panel, modelled in Dafny

mkchart renders one data series from a JSON file into a PNG line chart and draws an
annotation panel on top of it. The panel shows the legend text one line per row. This
project models how that panel is laid out and drawn:

- `Legend.Split` splits the legend text at every newline, as `strings.Split(legend, "\n")` does.
- `Annotation.MeasureContent` is the measuring pass. Starting from the anchor (55, H - 5),
  where H is the chart height, it stacks the non-empty lines upwards and keeps the widest one.
- `Annotation.RenderDetails` is the overlay closure. It measures, draws the panel box padded
  by 5 on every side, then draws each non-empty line top to bottom with a moving baseline cursor.
- `Chart.RenderLegend` is the element the chart registers: the overlay run on the legend's lines.

The drawing surface is a `Render.Renderer` object. It measures text through one fixed
function from a string to a non-negative width and height. It records every call it
receives, in order: `BoxCall(box, style)` or `TextCall(text, x, y)`. Every drawing method
is proved against a specification function of its inputs: `ContentBox`, `PanelBox` and
`Trace`. The properties are proved as lemmas about those functions.

Files:
- `geometry.dfy`: the four-edge `Box` and `Grow`.
- `render.dfy`: the recording renderer.
- `annotation.dfy`: the panel's layout and drawing, with its lemmas.
- `legend.dfy`: splitting the legend.
- `chart.dfy`: wiring the legend into the panel.

## Model

| member | source | states |
|---|---|---|
| Geometry.Grow | main.go:150 | the grown box encloses both boxes and lies inside every box that encloses both (the least enclosing box) |
| Annotation.NonBlank | main.go:140-143 | no drawn line is empty and there are at most as many drawn lines as input lines |
| Annotation.NonBlankMembers | main.go:140-143 | a string is drawn exactly when it is an input line and is not empty |
| Annotation.NonBlankAppend | main.go:140-143 | skipping empty lines distributes over concatenation of the input |
| Annotation.NonBlankSnoc | main.go:140-143 | one more input line adds that line to the drawn lines, unless it is empty |
| Annotation.AllBlank | main.go:141-143 | input made only of empty lines has no line to draw |
| Annotation.MaxWidth | main.go:146-147 | the result is at least every line's measured width, and 0 when there are no lines |
| Annotation.MaxWidthAttained | main.go:146-147 | for a non-empty list, some line is exactly as wide as the maximum |
| Annotation.MaxWidthAppend | main.go:146-147 | the maximum width over a concatenation is the larger of the two maxima |
| Annotation.TotalHeightAppend | main.go:145 | the summed height over a concatenation is the sum of the two sums |
| Annotation.PrefixHeightMonotone | main.go:145 | the summed height of a shorter prefix never exceeds that of a longer one |
| Annotation.MeasureStep | main.go:140-148 | one iteration: an empty line leaves the content box unchanged; any other raises its top by the line's height and moves its right edge out to the line's end if that is further |
| Annotation.MeasureContent | main.go:118-148 | after the measuring loop the content bottom is H - 5 and its left is 55; its height is the sum of the non-empty lines' heights, with no spacing between them; its width is their maximum width |
| Annotation.ContentBoxSize | main.go:130-148 | the content box's edges as above, and every non-empty line fits in the content width |
| Annotation.PanelPadding | main.go:125-135 | the panel encloses the content with 5 on each side: right = content right + 5, top = content top - 5, left = 50 = content left - 5, bottom = H = content bottom + 5 |
| Annotation.TextCalls | main.go:160-170 | the drawing pass makes exactly one text call per line it is given |
| Annotation.TextCallsAppend | main.go:162-170 | drawing a concatenation draws the first part, then the second part from the cursor advanced by the first part's height |
| Annotation.TextCallsAt | main.go:166-169 | the k-th text call draws the k-th line at x, on the baseline that is the start cursor plus the heights of lines 0..k |
| Annotation.DrawStep | main.go:162-170 | one iteration: an empty line draws nothing; any other is drawn one line height below the cursor, and the cursor moves there |
| Annotation.RenderDetails | main.go:101-171 | the renderer's calls are its previous calls followed by exactly the specified trace: the panel box, then the text calls |
| Annotation.DrawOrder | main.go:155-170 | the panel box is drawn first and only once; then one text call per non-empty line in input order, at x = 55, the k-th baseline at content top plus the heights of the first k lines |
| Annotation.BaselinesDescend | main.go:160-170 | every call after the first is a text call; baselines never decrease; the last baseline is the content's bottom edge |
| Annotation.BlankLineIgnored | main.go:141-143 | inserting an empty line anywhere changes neither the content box nor any drawn box, text or coordinate |
| Annotation.DegeneratePanel | main.go:125-155 | with no non-empty line, no text is drawn and the panel is the degenerate box top H - 10, left 50, right 60, bottom H |
| Legend.Split | main.go:84 | splitting always yields at least one piece |
| Legend.SplitPiecesHaveNoNewline | main.go:84 | no piece contains a newline |
| Legend.JoinSplit | main.go:84 | joining the pieces with newlines gives back the legend |
| Legend.SplitLength | main.go:84 | there is one piece more than there are newlines, so the empty legend is one empty piece |
| Legend.SplitPrefix | main.go:84 | a newline-free prefix merges into the first piece of what follows it |
| Legend.SplitJoin | main.go:84 | splitting newline-free pieces joined with newlines gives back the pieces |
| Legend.SplitTrailingNewline | main.go:84 | a trailing newline adds one empty last piece |
| Chart.RenderLegend | main.go:82-85 | the registered element draws exactly the panel trace of the legend's lines |
| Chart.TrailingNewlineIgnored | main.go:84 | a legend ending in a newline draws the same as the legend without it |
| Chart.EmptyLegend | main.go:84 | the empty legend draws only the degenerate panel |
| Chart.TwoLineLegend | main.go:84 | legend "A\nB" with line heights 10 and widths 5 and 8 gives content 20 high and 8 wide, with baselines at H - 15 and H - 5 |

## Left out

- `main`, `chartIt` and `render` (main.go:13-33, 55-97) are left out. They parse arguments, read the file, decode JSON, configure the chart library, encode the PNG and write the output file. All of that is I/O or library code; only the legend split at main.go:84 is modelled.
- Style resolution (main.go:103-116) is left out. `InheritFrom` and the style fields live in the charting library, and colours and font size are floating point. The resolved style is a type parameter that is passed unchanged to the box-drawing call.
- `Draw.Box` is one recorded `BoxCall`. The fill and stroke path calls it makes inside the library are not modelled.
- Text measurement is left abstract. It is one deterministic function from a string to a non-negative width and height, fixed for the renderer. This is what the two `WriteToRenderer` calls (main.go:137, 157) guarantee: both passes measure with the same font state. Real font metrics are not modelled.
- The chart height H is a parameter. It stands for `box.Height()`, a library method that is not part of this model.
- Go's 64-bit `int` arithmetic is modelled with unbounded integers. Overflow at extreme coordinates is not captured.
- Go strings are byte strings; they are modelled as `seq<char>`. Only the newline byte and emptiness matter to the modelled code, so nothing here depends on the encoding.
- `SplitLines` (main.go:35-42) is never called, so it is left out.
- The debug `fmt.Printf` (main.go:100) is output only and is left out.
- `contentPadding.Top` and `contentPadding.Bottom` (main.go:119, 122) are set but never read. The model builds the same value, and nothing depends on those two fields.
