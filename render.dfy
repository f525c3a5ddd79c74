/** The drawing surface handed to an overlay: it measures text with the font
    state currently written to it and records every drawing call it receives,
    in order. */
module Render {
  import opened Geometry

  /** The size of a piece of text as measured by the renderer. */
  datatype Extent = Extent(width: nat, height: nat)

  /** One drawing call: a filled, stroked box in the given style, or a line of
      text whose baseline starts at (x, y). */
  datatype Call<S> = BoxCall(box: Box, style: S) | TextCall(text: string, x: int, y: int)

  class Renderer<S> {
    /** Text measurement for the font state of the drawing pass; one function,
        so the measuring pass and the drawing pass always agree. */
    const measure: string -> Extent
    /** Every drawing call received so far, oldest first. */
    var calls: seq<Call<S>>

    constructor (measure: string -> Extent)
      ensures this.measure == measure && calls == []
    {
      this.measure := measure;
      calls := [];
    }

    function MeasureText(t: string): Extent {
      measure(t)
    }

    /** Draws `t` with its baseline starting at (x, y). */
    method Text(t: string, x: int, y: int)
      modifies this
      ensures calls == old(calls) + [TextCall(t, x, y)]
    {
      calls := calls + [TextCall(t, x, y)];
    }

    /** Fills and strokes `b` in `style`. */
    method DrawBox(b: Box, style: S)
      modifies this
      ensures calls == old(calls) + [BoxCall(b, style)]
    {
      calls := calls + [BoxCall(b, style)];
    }
  }
}
