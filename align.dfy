/**
 * The alignment node: the `align` library function that builds it from its
 * arguments, the conversion of a one- or two-axis alignment argument, and the
 * node's layout, which positions its single child within each region and
 * rewrites the child's reuse constraints.
 */
module Alignment {
  import opened Prelude
  import opened Geom
  import opened Frames

  // ---------------------------------------------------------------------------
  // Arguments

  /** The shapes an argument value may have, as far as this file tells them apart. */
  datatype Value = AlignValue(align: Align) | Align2dValue(aligns: Spec<Align>) | OtherValue

  /** Argument errors. */
  datatype ArgError = Expected(what: string) | Missing(what: string)

  /** No alignment on either axis (the default of `Spec<Option<Align>>`). */
  const NO_ALIGNS: Spec<Option<Align>> := Spec(None, None)

  /** Every present alignment sits on the axis it belongs to. */
  predicate AxisConsistent(aligns: Spec<Option<Align>>) {
    && (aligns.x.Some? ==> aligns.x.value.OnAxis() == Horizontal)
    && (aligns.y.Some? ==> aligns.y.value.OnAxis() == Vertical)
  }

  /** Converts a one- or two-axis alignment argument into an optional alignment
      per axis; any other value is refused. */
  function CastAligns(v: Value): (r: Result<Spec<Option<Align>>, ArgError>)
    ensures r.Ok? <==> !v.OtherValue?
    ensures v.AlignValue? ==> r.Ok? && AxisConsistent(r.value)
    ensures v.AlignValue? ==> r.Ok? && r.value.Get(v.align.OnAxis()) == Some(v.align)
                                    && r.value.Get(v.align.OnAxis().Other()) == None
    ensures v.Align2dValue? ==> r == Ok(Spec(Some(v.aligns.x), Some(v.aligns.y)))
    ensures v.OtherValue? ==> r == Err(Expected("1d or 2d alignment"))
  {
    match v
    case AlignValue(align) => Ok(NO_ALIGNS.Set(align.OnAxis(), Some(align)))
    case Align2dValue(aligns) => Ok(aligns.Map(a => Some(a)))
    case OtherValue => Err(Expected("1d or 2d alignment"))
  }

  // ---------------------------------------------------------------------------
  // Nodes

  /** The style properties `align` may set: only the paragraph alignment. */
  datatype Styles = Styles(parAlign: Option<Align>)

  /** Content nodes: opaque content, content under style changes, or aligned content. */
  datatype Node = Content(id: nat) | Styled(child: Node, styles: Styles) | Aligned(node: AlignNode)

  /** A node that aligns its child. */
  datatype AlignNode = AlignNode(aligns: Spec<Option<Align>>, child: Node)

  /** The `align` library function. `found` is the alignment argument found
      among the arguments, if any; `body` is the body argument, if given. */
  method AlignFunction(found: Option<Spec<Option<Align>>>, body: Option<Node>)
    returns (r: Result<Node, ArgError>)
    ensures body.None? ==> r == Err(Missing("body"))
    ensures body.Some? ==> r.Ok? && r.value.Aligned?
    ensures body.Some? ==> r.value.node.aligns == (if found.Some? then found.value else NO_ALIGNS)
    ensures body.Some? ==> r.value.node.child == Styled(body.value, Styles(r.value.node.aligns.x))
  {
    var aligns := if found.Some? then found.value else NO_ALIGNS;
    if body.None? {
      return Err(Missing("body"));
    }
    var styles := Styles(None);
    if aligns.x.Some? {
      styles := styles.(parAlign := Some(aligns.x.value));
    }
    r := Ok(Aligned(AlignNode(aligns, Styled(body.value, styles))));
  }

  // ---------------------------------------------------------------------------
  // Layout

  /** The regions the child is laid out in: the same regions, with expansion
      switched off on every axis that has an alignment. */
  function ChildRegions(aligns: Spec<Option<Align>>, regions: Regions): (pod: Regions)
    ensures pod.list == regions.list
    ensures pod.expand.x == (regions.expand.x && aligns.x.None?)
    ensures pod.expand.y == (regions.expand.y && aligns.y.None?)
  {
    regions.(expand := And(regions.expand, MapIsNone(aligns)))
  }

  /** The alignment actually used for placement: the requested one where
      present, else left horizontally and top vertically. */
  function EffectiveAligns(aligns: Spec<Option<Align>>): (r: Spec<Align>)
    ensures aligns.x.Some? ==> r.x == aligns.x.value
    ensures aligns.y.Some? ==> r.y == aligns.y.value
    ensures aligns.x.None? ==> r.x == Left
    ensures aligns.y.None? ==> r.y == Top
  {
    UnwrapOr(aligns, Spec(Left, Top))
  }

  /** What the layout makes of the child's result `c` for `region`, under the
      parent's expansion flags `expand`. */
  function AlignEntry(aligns: Spec<Option<Align>>, expand: Spec<bool>, region: Region, c: Constrained)
    : (r: Constrained)
    ensures r.item.size.x == (if expand.x then region.current.x else c.item.size.x)
    ensures r.item.size.y == (if expand.y then region.current.y else c.item.size.y)
    ensures Placed(EffectiveAligns(aligns).x, r.item.origin.x - c.item.origin.x, c.item.size.x, r.item.size.x)
    ensures Placed(EffectiveAligns(aligns).y, r.item.origin.y - c.item.origin.y, c.item.size.y, r.item.size.y)
    ensures r.cts.expand == expand
    ensures r.cts.base.x == (if c.cts.base.x.Some? then Some(region.base.x) else None)
    ensures r.cts.base.y == (if c.cts.base.y.Some? then Some(region.base.y) else None)
    ensures r.cts.exact.x == (if expand.x || c.cts.exact.x.Some? then Some(region.current.x) else None)
    ensures r.cts.exact.y == (if expand.y || c.cts.exact.y.Some? then Some(region.current.y) else None)
    ensures r.cts.Admits(region, expand)
  {
    var target := Select(expand, region.current, c.item.size);
    var frame := Resize(c.item, target, EffectiveAligns(aligns));
    var cts := c.cts.(expand := expand,
                      base := Filter(region.base, MapIsSome(c.cts.base)),
                      exact := Filter(region.current, Or(expand, MapIsSome(c.cts.exact))));
    Constrained(frame, cts)
  }

  /** The child's results `frames` zipped with the regions `list`: each result
      that has a region is rewritten for it, the rest are kept as they are. */
  function Realigned(aligns: Spec<Option<Align>>, expand: Spec<bool>, list: seq<Region>, frames: seq<Constrained>)
    : (r: seq<Constrained>)
    ensures |r| == |frames|
    decreases frames
  {
    if list == [] || frames == [] then frames
    else [AlignEntry(aligns, expand, list[0], frames[0])] + Realigned(aligns, expand, list[1..], frames[1..])
  }

  /** Lays out `node` in `regions`, where `layoutChild` is the child's own layout. */
  method Layout(node: AlignNode, regions: Regions, layoutChild: Regions -> seq<Constrained>)
    returns (result: seq<Constrained>)
    ensures result == Realigned(node.aligns, regions.expand, regions.list,
                                layoutChild(ChildRegions(node.aligns, regions)))
  {
    // The child expands only along axes without an alignment.
    var pod := ChildRegions(node.aligns, regions);
    var laidOut := layoutChild(pod);
    var frames := new Constrained[|laidOut|](k requires 0 <= k < |laidOut| => laidOut[k]);

    var aligns := EffectiveAligns(node.aligns);
    var i := 0;
    while i < |regions.list| && i < frames.Length
      invariant 0 <= i <= frames.Length && i <= |regions.list|
      invariant forall k :: 0 <= k < i ==>
        frames[k] == AlignEntry(node.aligns, regions.expand, regions.list[k], laidOut[k])
      invariant forall k :: i <= k < frames.Length ==> frames[k] == laidOut[k]
    {
      var region := regions.list[i];
      var Constrained(frame, cts) := frames[i];
      // Align in the target size, which depends on whether we expand.
      var target := Select(regions.expand, region.current, frame.size);
      frame := Resize(frame, target, aligns);
      cts := cts.(expand := regions.expand);
      cts := cts.(base := Filter(region.base, MapIsSome(cts.base)));
      cts := cts.(exact := Filter(region.current, Or(regions.expand, MapIsSome(cts.exact))));
      frames[i] := Constrained(frame, cts);
      i := i + 1;
    }
    result := frames[..];

    forall k | 0 <= k < |result|
      ensures result[k] == Realigned(node.aligns, regions.expand, regions.list, laidOut)[k]
    {
      RealignedAt(node.aligns, regions.expand, regions.list, laidOut, k);
    }
  }

  // ---------------------------------------------------------------------------
  // Properties of the layout

  /** Order and length: result `k` is the child's result `k`, rewritten with
      region `k` when there is one and untouched otherwise. */
  lemma {:induction false} RealignedAt(aligns: Spec<Option<Align>>, expand: Spec<bool>, list: seq<Region>,
                                       frames: seq<Constrained>, k: nat)
    requires k < |frames|
    ensures |Realigned(aligns, expand, list, frames)| == |frames|
    ensures Realigned(aligns, expand, list, frames)[k]
         == if k < |list| then AlignEntry(aligns, expand, list[k], frames[k]) else frames[k]
  {
    if list != [] && k > 0 {
      RealignedAt(aligns, expand, list[1..], frames[1..], k - 1);
    }
  }

  /** Aligning a result a second time, for the same region, changes nothing. */
  lemma AlignEntryIdempotent(aligns: Spec<Option<Align>>, expand: Spec<bool>, region: Region, c: Constrained)
    ensures AlignEntry(aligns, expand, region, AlignEntry(aligns, expand, region, c))
         == AlignEntry(aligns, expand, region, c)
  {
  }

  /** Laying out already aligned results again, in the same regions, changes nothing. */
  lemma {:induction false} RealignedIdempotent(aligns: Spec<Option<Align>>, expand: Spec<bool>,
                                               list: seq<Region>, frames: seq<Constrained>)
    ensures Realigned(aligns, expand, list, Realigned(aligns, expand, list, frames))
         == Realigned(aligns, expand, list, frames)
  {
    if list != [] && frames != [] {
      AlignEntryIdempotent(aligns, expand, list[0], frames[0]);
      RealignedIdempotent(aligns, expand, list[1..], frames[1..]);
    }
  }

  /** The recomputed constraints are sound for reuse: in any region they admit,
      aligning the same child result gives the same frame and constraints. */
  lemma ReuseSound(aligns: Spec<Option<Align>>, expand: Spec<bool>, region: Region, other: Region,
                   c: Constrained)
    requires AlignEntry(aligns, expand, region, c).cts.Admits(other, expand)
    ensures AlignEntry(aligns, expand, other, c) == AlignEntry(aligns, expand, region, c)
  {
  }

  /** The constraints record of every rewritten result: `expand` is the parent's
      flags, `base` narrows to the axes the child depended on, and `exact` is
      recorded on every expanding axis; all of them hold of the region used. */
  lemma LayoutConstraints(aligns: Spec<Option<Align>>, regions: Regions, frames: seq<Constrained>, k: nat)
    requires k < |frames| && k < |regions.list|
    ensures var r := Realigned(aligns, regions.expand, regions.list, frames)[k];
      && r.cts.expand == regions.expand
      && (r.cts.base.x.Some? <==> frames[k].cts.base.x.Some?)
      && (r.cts.base.y.Some? <==> frames[k].cts.base.y.Some?)
      && (regions.expand.x ==> r.cts.exact.x == Some(regions.list[k].current.x))
      && (regions.expand.y ==> r.cts.exact.y == Some(regions.list[k].current.y))
      && r.cts.Admits(regions.list[k], regions.expand)
  {
    RealignedAt(aligns, regions.expand, regions.list, frames, k);
  }

  /** With expansion on both axes and no alignment, every region is filled exactly. */
  lemma FullStretch(aligns: Spec<Option<Align>>, regions: Regions, frames: seq<Constrained>, k: nat)
    requires aligns == NO_ALIGNS && regions.expand == Spec(true, true)
    requires k < |frames| && k < |regions.list|
    ensures ChildRegions(aligns, regions) == regions
    ensures Realigned(aligns, regions.expand, regions.list, frames)[k].item.size == regions.list[k].current
  {
    RealignedAt(aligns, regions.expand, regions.list, frames, k);
  }

  /** On an axis with an alignment the child is laid out without expansion, yet
      where the parent expands the result still takes the region's current size
      and the child's frame is placed inside it by the alignment. */
  lemma AlignedAxisFillsRegion(aligns: Spec<Option<Align>>, regions: Regions, frames: seq<Constrained>, k: nat)
    requires aligns.x.Some? && regions.expand.x
    requires k < |frames| && k < |regions.list|
    ensures !ChildRegions(aligns, regions).expand.x
    ensures var r := Realigned(aligns, regions.expand, regions.list, frames)[k];
      && r.item.size.x == regions.list[k].current.x
      && Placed(aligns.x.value, r.item.origin.x - frames[k].item.origin.x,
                frames[k].item.size.x, regions.list[k].current.x)
  {
    RealignedAt(aligns, regions.expand, regions.list, frames, k);
  }

  /** Where the parent does not expand, the result keeps the child's size and
      its contents stay put, whatever the alignment. */
  lemma NoExpandKeepsFrame(aligns: Spec<Option<Align>>, regions: Regions, frames: seq<Constrained>, k: nat)
    requires regions.expand == Spec(false, false)
    requires k < |frames| && k < |regions.list|
    ensures Realigned(aligns, regions.expand, regions.list, frames)[k].item == frames[k].item
  {
    RealignedAt(aligns, regions.expand, regions.list, frames, k);
  }

  // ---------------------------------------------------------------------------
  // Concrete scenarios: a 100 x 50 region that expands on both axes

  const REGION := Region(Spec(100.0, 50.0), Spec(100.0, 50.0))
  const EXPAND_BOTH := Spec(true, true)
  const FREE := Constraints(Spec(false, false), Spec(None, None), Spec(None, None))

  /** No alignment: a 30 x 10 child is stretched to the full region and stays at the origin. */
  lemma ScenarioNoAlign()
    ensures ChildRegions(NO_ALIGNS, Regions([REGION], EXPAND_BOTH)).expand == EXPAND_BOTH
    ensures AlignEntry(NO_ALIGNS, EXPAND_BOTH, REGION, Constrained(Frame(Spec(30.0, 10.0), Spec(0.0, 0.0)), FREE)).item
         == Frame(Spec(100.0, 50.0), Spec(0.0, 0.0))
  {
  }

  /** Centered on both axes: the child is laid out without expansion and its
      30 x 10 frame is centered in the full 100 x 50 region. */
  lemma ScenarioCentered()
    ensures ChildRegions(Spec(Some(CenterX), Some(CenterY)), Regions([REGION], EXPAND_BOTH)).expand
         == Spec(false, false)
    ensures AlignEntry(Spec(Some(CenterX), Some(CenterY)), EXPAND_BOTH, REGION,
                       Constrained(Frame(Spec(30.0, 10.0), Spec(0.0, 0.0)), FREE)).item
         == Frame(Spec(100.0, 50.0), Spec(35.0, 20.0))
  {
  }

  /** Right-aligned horizontally only: the child still expands vertically, and
      its 30-wide frame ends flush with the right edge of the region. */
  lemma ScenarioRightOnly()
    ensures ChildRegions(Spec(Some(Right), None), Regions([REGION], EXPAND_BOTH)).expand
         == Spec(false, true)
    ensures AlignEntry(Spec(Some(Right), None), EXPAND_BOTH, REGION,
                       Constrained(Frame(Spec(30.0, 50.0), Spec(0.0, 0.0)), FREE)).item
         == Frame(Spec(100.0, 50.0), Spec(70.0, 0.0))
  {
  }
}
