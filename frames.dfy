/**
 * The layout protocol's collaborators as far as the alignment node sees them:
 * the regions offered to a layout, the frames it returns, and the constraints
 * record attached to each frame to decide whether it may be reused.
 */
module Frames {
  import opened Prelude
  import opened Geom

  /** A laid-out frame. Its elements are opaque here; `origin` is the offset by
      which its contents have been translated within the frame. */
  datatype Frame = Frame(size: Size, origin: Point)

  /** Within a box of `target` length holding content of `natural` length that
      was moved by `shift`, the content sits where `align` asks: flush with the
      start, flush with the end, or with equal slack on both sides. */
  predicate Placed(align: Align, shift: Length, natural: Length, target: Length) {
    if align.IsStart() then shift == 0.0
    else if align.IsEnd() then shift + natural == target
    else shift == target - (shift + natural)
  }

  /** Gives `frame` the size `target` and moves its contents inside the new
      size according to `aligns`. */
  function Resize(frame: Frame, target: Size, aligns: Spec<Align>): (r: Frame)
    ensures r.size == target
    ensures Placed(aligns.x, r.origin.x - frame.origin.x, frame.size.x, target.x)
    ensures Placed(aligns.y, r.origin.y - frame.origin.y, frame.size.y, target.y)
    ensures target == frame.size ==> r == frame
  {
    var offset := Spec(aligns.x.Resolve(target.x - frame.size.x),
                       aligns.y.Resolve(target.y - frame.size.y));
    Frame(target, Spec(frame.origin.x + offset.x, frame.origin.y + offset.y))
  }

  /** Which properties of the region a layout result depends on. */
  datatype Constraints = Constraints(
    expand: Spec<bool>,
    base: Spec<Option<Length>>,
    exact: Spec<Option<Length>>)
  {
    /** The recorded dependencies are met by `region` under `expand`, so a
        result carrying these constraints may be reused there. */
    predicate Admits(region: Region, expand': Spec<bool>) {
      && expand == expand'
      && (base.x.Some? ==> base.x.value == region.base.x)
      && (base.y.Some? ==> base.y.value == region.base.y)
      && (exact.x.Some? ==> exact.x.value == region.current.x)
      && (exact.y.Some? ==> exact.y.value == region.current.y)
    }
  }

  /** A layout result together with its constraints. */
  datatype Constrained = Constrained(item: Frame, cts: Constraints)

  /** One region as the region iterator yields it: its current and base size. */
  datatype Region = Region(current: Size, base: Size)

  /** The regions offered to a layout, in order, and the expansion flags shared
      by all of them. */
  datatype Regions = Regions(list: seq<Region>, expand: Spec<bool>)
}
