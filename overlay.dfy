/**
 The drawing that `onResults` issues for one detector result, as an abstract
 trace of 2D-context operations (no pixels), and an interpretation of the part
 of the context state the trace changes: the composite mode and the stack of
 saved states.
 */
module Overlay {
  import opened Landmarks

  /** The values of `globalCompositeOperation` the component uses. */
  datatype Composite = SourceOver | SourceIn | DestinationAtop

  /** Stroke colour and line width handed to the drawing library. */
  datatype Style = Style(color: string, lineWidth: nat)

  const BoneStyle := Style("#00FF00", 4)
  const JointStyle := Style("#FF0000", 2)
  const ReferenceStyle := Style("#FFFF00", 2)

  /**
   One call on the canvas or into the drawing library. Sizes are the canvas
   element's width and height. DrawConnectors takes a list of index pairs;
   DrawFlatConnectors is the reference-line call, whose connection argument
   is a flat list of two indices rather than a list of pairs.
   */
  datatype DrawOp =
    | Save
    | Restore
    | SetComposite(mode: Composite)
    | ClearRect(width: nat, height: nat)
    | FillRect(width: nat, height: nat)
    | DrawImage(width: nat, height: nat)
    | DrawConnectors(connections: seq<(Point, Point)>, style: Style)
    | DrawLandmarks(points: seq<Point>, style: Style)
    | DrawFlatConnectors(points: seq<Point>, style: Style)

  /** An operation that paints (or erases) pixels, as opposed to one that only changes context state. */
  predicate Paints(op: DrawOp)
  {
    !(op.Save? || op.Restore? || op.SetComposite?)
  }

  /** Saving the context and clearing the whole canvas. */
  function Prologue(width: nat, height: nat): seq<DrawOp>
  {
    [Save, ClearRect(width, height)]
  }

  /** The fill of the whole canvas in source-in (over the canvas just cleared). */
  function FillStage(width: nat, height: nat): seq<DrawOp>
  {
    [SetComposite(SourceIn), FillRect(width, height)]
  }

  /** The camera frame: only overwrite missing pixels. */
  function FrameStage(width: nat, height: nat): seq<DrawOp>
  {
    [SetComposite(DestinationAtop), DrawImage(width, height)]
  }

  /** The skeleton in normal compositing: bones, joints, then the reference line. */
  function SkeletonStage(): seq<DrawOp>
  {
    [
      SetComposite(SourceOver),
      DrawConnectors(Bones, BoneStyle),
      DrawLandmarks(Joints, JointStyle),
      DrawFlatConnectors(ReferenceLine, ReferenceStyle)
    ]
  }

  /** The operations `onResults` issues for one result, on a canvas of the given size. */
  function Render(width: nat, height: nat, hasLandmarks: bool): (ops: seq<DrawOp>)
    ensures !hasLandmarks <==> ops == []
    ensures hasLandmarks ==> |ops| == 11 && ops[0] == Save && ops[10] == Restore
  {
    if !hasLandmarks then []
    else
      Prologue(width, height) + FillStage(width, height) + FrameStage(width, height)
      + SkeletonStage() + [Restore]
  }

  /** The context state the trace touches: the current composite mode and the saved modes. */
  datatype Context = Context(mode: Composite, saved: seq<Composite>)

  /** The effect of one operation on the context; restoring with nothing saved does nothing. */
  function Apply(c: Context, op: DrawOp): (r: Context)
    ensures Paints(op) ==> r == c
  {
    match op
    case Save => Context(c.mode, c.saved + [c.mode])
    case Restore =>
      if c.saved == [] then c
      else Context(c.saved[|c.saved| - 1], c.saved[..|c.saved| - 1])
    case SetComposite(m) => c.(mode := m)
    case _ => c
  }

  /** The context after running a trace. */
  function Replay(c: Context, ops: seq<DrawOp>): Context
    decreases |ops|
  {
    if ops == [] then c else Replay(Apply(c, ops[0]), ops[1..])
  }

  /**
   The painting operations of a trace, in order, each paired with the
   composite mode in force when it runs.
   */
  function Painted(c: Context, ops: seq<DrawOp>): (ps: seq<(DrawOp, Composite)>)
    ensures forall k :: 0 <= k < |ps| ==> Paints(ps[k].0)
    ensures |ps| <= |ops|
    decreases |ops|
  {
    if ops == [] then []
    else (if Paints(ops[0]) then [(ops[0], c.mode)] else []) + Painted(Apply(c, ops[0]), ops[1..])
  }

  lemma {:induction false} ReplayAppend(c: Context, a: seq<DrawOp>, b: seq<DrawOp>)
    ensures Replay(c, a + b) == Replay(Replay(c, a), b)
    decreases |a|
  {
    if a == [] {
      assert a + b == b;
    } else {
      assert (a + b)[1..] == a[1..] + b;
      ReplayAppend(Apply(c, a[0]), a[1..], b);
    }
  }

  lemma {:induction false} PaintedAppend(c: Context, a: seq<DrawOp>, b: seq<DrawOp>)
    ensures Painted(c, a + b) == Painted(c, a) + Painted(Replay(c, a), b)
    decreases |a|
  {
    if a == [] {
      assert a + b == b;
    } else {
      assert (a + b)[1..] == a[1..] + b;
      PaintedAppend(Apply(c, a[0]), a[1..], b);
    }
  }

  /** Replay and Painted of a one-operation trace. */
  lemma Single(c: Context, x: DrawOp)
    ensures Replay(c, [x]) == Apply(c, x)
    ensures Painted(c, [x]) == if Paints(x) then [(x, c.mode)] else []
  {
    assert [x][1..] == [];
  }

  /** Replay and Painted of a two-operation trace whose first operation sets the mode. */
  lemma Pair(c: Context, m: Composite, y: DrawOp)
    requires Paints(y)
    ensures Replay(c, [SetComposite(m), y]) == c.(mode := m)
    ensures Painted(c, [SetComposite(m), y]) == [(y, m)]
  {
    assert [SetComposite(m), y][1..] == [y];
    Single(c.(mode := m), y);
  }

  /** Saving pushes the current mode; the clear paints in whatever mode was in force. */
  lemma PrologueEffect(c: Context, width: nat, height: nat)
    ensures Replay(c, Prologue(width, height)) == Context(c.mode, c.saved + [c.mode])
    ensures Painted(c, Prologue(width, height)) == [(ClearRect(width, height), c.mode)]
  {
    var ops := Prologue(width, height);
    assert ops[1..] == [ClearRect(width, height)];
    Single(Apply(c, Save), ClearRect(width, height));
  }

  /** The fill runs in source-in and leaves that mode set. */
  lemma FillEffect(c: Context, width: nat, height: nat)
    ensures Replay(c, FillStage(width, height)) == c.(mode := SourceIn)
    ensures Painted(c, FillStage(width, height)) == [(FillRect(width, height), SourceIn)]
  {
    Pair(c, SourceIn, FillRect(width, height));
  }

  /** The camera frame is drawn in destination-atop and leaves that mode set. */
  lemma FrameEffect(c: Context, width: nat, height: nat)
    ensures Replay(c, FrameStage(width, height)) == c.(mode := DestinationAtop)
    ensures Painted(c, FrameStage(width, height)) == [(DrawImage(width, height), DestinationAtop)]
  {
    Pair(c, DestinationAtop, DrawImage(width, height));
  }

  /** Bones, joints and the reference line are all drawn in source-over. */
  lemma SkeletonEffect(c: Context)
    ensures Replay(c, SkeletonStage()) == c.(mode := SourceOver)
    ensures Painted(c, SkeletonStage()) == [
      (DrawConnectors(Bones, BoneStyle), SourceOver),
      (DrawLandmarks(Joints, JointStyle), SourceOver),
      (DrawFlatConnectors(ReferenceLine, ReferenceStyle), SourceOver)]
  {
    var s := SkeletonStage();
    var c1 := c.(mode := SourceOver);
    assert s == s[..2] + s[2..];
    ReplayAppend(c, s[..2], s[2..]);
    PaintedAppend(c, s[..2], s[2..]);
    assert s[..2] == [SetComposite(SourceOver), DrawConnectors(Bones, BoneStyle)];
    Pair(c, SourceOver, DrawConnectors(Bones, BoneStyle));
    assert s[2..][1..] == [s[3]];
    Single(c1, s[3]);
  }

  /**
   The trace with the stages named: Render is the prologue, the three
   compositing stages and the final restore, run one after another.
   */
  lemma RenderStages(c: Context, width: nat, height: nat)
    ensures var pro, fill, frame, skel :=
        Prologue(width, height), FillStage(width, height), FrameStage(width, height), SkeletonStage();
      var c1 := Replay(c, pro);
      var c2 := Replay(c1, fill);
      var c3 := Replay(c2, frame);
      var c4 := Replay(c3, skel);
      && Replay(c, Render(width, height, true)) == Apply(c4, Restore)
      && Painted(c, Render(width, height, true)) ==
        Painted(c, pro) + Painted(c1, fill) + Painted(c2, frame) + Painted(c3, skel)
  {
    var pro, fill, frame, skel :=
      Prologue(width, height), FillStage(width, height), FrameStage(width, height), SkeletonStage();
    var c4 := Replay(c, pro + fill + frame + skel);
    ReplayAppend(c, pro, fill);
    ReplayAppend(c, pro + fill, frame);
    ReplayAppend(c, pro + fill + frame, skel);
    ReplayAppend(c, pro + fill + frame + skel, [Restore]);
    PaintedAppend(c, pro, fill);
    PaintedAppend(c, pro + fill, frame);
    PaintedAppend(c, pro + fill + frame, skel);
    PaintedAppend(c, pro + fill + frame + skel, [Restore]);
    Single(c4, Restore);
  }

  /**
   A call leaves the context as it found it: the save at the start and the
   restore at the end undo the mode changes, so nothing carries over from
   one frame to the next.
   */
  lemma RenderRestoresContext(c: Context, width: nat, height: nat, hasLandmarks: bool)
    ensures Replay(c, Render(width, height, hasLandmarks)) == c
  {
    if hasLandmarks {
      RenderStages(c, width, height);
      var c1 := Context(c.mode, c.saved + [c.mode]);
      PrologueEffect(c, width, height);
      FillEffect(c1, width, height);
      FrameEffect(c1.(mode := SourceIn), width, height);
      SkeletonEffect(c1.(mode := DestinationAtop));
      assert (c.saved + [c.mode])[..|c.saved|] == c.saved;
    }
  }

  /**
   What a call paints, in order and with the mode each painting runs in,
   whatever mode the context had before: a full clear, the fill in
   source-in, the camera frame in destination-atop, then bones, joints and
   the reference line in source-over. A result without landmarks paints
   nothing.
   */
  lemma RenderPaints(c: Context, width: nat, height: nat, hasLandmarks: bool)
    ensures Painted(c, Render(width, height, hasLandmarks)) ==
      if hasLandmarks then [
        (ClearRect(width, height), c.mode),
        (FillRect(width, height), SourceIn),
        (DrawImage(width, height), DestinationAtop),
        (DrawConnectors(Bones, BoneStyle), SourceOver),
        (DrawLandmarks(Joints, JointStyle), SourceOver),
        (DrawFlatConnectors(ReferenceLine, ReferenceStyle), SourceOver)
      ]
      else []
  {
    if hasLandmarks {
      RenderStages(c, width, height);
      var c1 := Context(c.mode, c.saved + [c.mode]);
      PrologueEffect(c, width, height);
      FillEffect(c1, width, height);
      FrameEffect(c1.(mode := SourceIn), width, height);
      SkeletonEffect(c1.(mode := DestinationAtop));
    }
  }
}
