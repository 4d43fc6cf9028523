/**
 * The mutable Skia path buffer the wave builders write into, reduced to the
 * list of drawing commands it records.
 */
module SkiaPath {

  datatype Cmd =
    | Move(x: real, y: real)
    | Line(x: real, y: real)
    | Quad(cx: real, cy: real, x: real, y: real)
    | Cubic(c1x: real, c1y: real, c2x: real, c2y: real, x: real, y: real)
    | Close
  {
    /** The on-curve point the command ends at (Close has none). */
    function End(): (real, real)
      requires !Close?
    {
      match this
      case Move(x, y) => (x, y)
      case Line(x, y) => (x, y)
      case Quad(_, _, x, y) => (x, y)
      case Cubic(_, _, _, _, x, y) => (x, y)
    }

    /** Every x coordinate the command mentions, control points included. */
    function XCoords(): seq<real> {
      match this
      case Move(x, _) => [x]
      case Line(x, _) => [x]
      case Quad(cx, _, x, _) => [cx, x]
      case Cubic(c1x, _, c2x, _, x, _) => [c1x, c2x, x]
      case Close => []
    }

    predicate XWithin(lo: real, hi: real) {
      forall i :: 0 <= i < |XCoords()| ==> lo <= XCoords()[i] <= hi
    }
  }

  class Path {
    var cmds: seq<Cmd>

    constructor ()
      ensures cmds == []
    {
      cmds := [];
    }

    method Reset()
      modifies this
      ensures cmds == []
    {
      cmds := [];
    }

    method MoveTo(x: real, y: real)
      modifies this
      ensures cmds == old(cmds) + [Move(x, y)]
    {
      cmds := cmds + [Move(x, y)];
    }

    method LineTo(x: real, y: real)
      modifies this
      ensures cmds == old(cmds) + [Line(x, y)]
    {
      cmds := cmds + [Line(x, y)];
    }

    method QuadTo(cx: real, cy: real, x: real, y: real)
      modifies this
      ensures cmds == old(cmds) + [Quad(cx, cy, x, y)]
    {
      cmds := cmds + [Quad(cx, cy, x, y)];
    }

    method CubicTo(c1x: real, c1y: real, c2x: real, c2y: real, x: real, y: real)
      modifies this
      ensures cmds == old(cmds) + [Cubic(c1x, c1y, c2x, c2y, x, y)]
    {
      cmds := cmds + [Cubic(c1x, c1y, c2x, c2y, x, y)];
    }

    method Close()
      modifies this
      ensures cmds == old(cmds) + [Cmd.Close]
    {
      cmds := cmds + [Cmd.Close];
    }
  }
}
