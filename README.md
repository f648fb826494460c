# Alignment node of the layout engine

This project models the alignment primitive of a document-composition engine's
layout stage (`src/library/align.rs`). The primitive has three parts:

- **`align`**: the library function that builds an aligned block from its arguments. It takes an optional one- or two-axis alignment and a mandatory body. It also records the horizontal alignment as the paragraph alignment style.
- **The alignment-argument conversion**: it turns a single `Align` into an alignment on its own axis only, and a two-axis alignment into alignments on both axes.
- **`AlignNode`'s layout**: it lays out the child and then rewrites each of the child's results. On axes that have an alignment, the child is laid out with expansion switched off. Each result is then resized to its target size and its contents are placed by the alignment. Finally its reuse constraints (`expand`, `base`, `exact`) are recomputed.

Files:

- `prelude.dfy`: `Option` and `Result`.
- `geom.dfy`: axes, `Align` and `Spec<T>` (one value per axis), with the per-axis combinators the node uses (`And`, `Or`, `Select`, `Filter`, `MapIsNone`, `MapIsSome`, `UnwrapOr`).
- `frames.dfy`: frames, `Resize`, constraints records, and regions.
- `align.dfy`: the node, the `align` function, the layout, and the properties proved about them.

Modelling decisions:

- Lengths are exact reals.
- The child's layout is a function parameter `Regions -> seq<Constrained>`. `Layout` calls it on the derived child regions.
- The vector of results is an array that `Layout` rewrites in place, one entry per loop step.
- `Regions` is the finite sequence of `(current, base)` pairs the region iterator yields, plus the shared expansion flags. The zip stops at the shorter of the two sequences, so a finite prefix of the iterator is enough.
- `Align` has the values `Left`, `CenterX`, `Right`, `Top`, `CenterY` and `Bottom`, each tied to one axis. `src/geom/align.rs` is not part of this model.
- `Frame::resize` (in `src/frame.rs`, which is not part of this model) sets the frame's size to the target. It also moves the contents by the alignment's share of the free space: nothing for start, all of it for end, half for center. The model records the content offset as `origin`.

An aligned axis does not shrink the result to the child's natural size when the parent expands:

- The target size uses the parent's original `expand` flags (`src/library/align.rs:66`), not the child's cleared ones.
- So on an expanding axis the result takes the region's size and the child's frame is placed inside it. `ScenarioCentered` proves that a centered 30 x 10 child in an expanding 100 x 50 region gives a 100 x 50 frame with its contents at (35, 20), and `AlignedAxisFillsRegion` states the general case.

## Model

| member | source | states |
|---|---|---|
| Alignment.CastAligns | src/library/align.rs:27-37 | A single alignment becomes `Some` on its own axis and `None` on the other. A two-axis alignment becomes `Some` on both. Any other value fails with "expected 1d or 2d alignment". The conversion succeeds exactly for the two accepted shapes. |
| Alignment.AlignFunction | src/library/align.rs:7-17 | A missing body is the error "missing argument: body". No alignment argument means no alignment on either axis. Otherwise the result is an aligned node with the given alignments. Its child is the body under styles whose paragraph alignment is set exactly when the horizontal alignment is present, and then to that value. |
| Alignment.ChildRegions | src/library/align.rs:54-56 | The child gets the same regions. Its expand flag on each axis is the parent's flag AND the absence of an alignment on that axis. |
| Alignment.EffectiveAligns | src/library/align.rs:67-68 | Present alignments pass through unchanged. Absent ones become Left horizontally and Top vertically. |
| Frames.Resize | src/library/align.rs:69 | The resized frame has exactly the target size. On each axis its contents are flush with the start, flush with the end, or centered with equal slack, as the alignment asks. Resizing to the frame's own size changes nothing. |
| Alignment.AlignEntry | src/library/align.rs:61-75 | Per axis, the size is the region's current size if the parent expands, else the child frame's size, and the contents are placed by the effective alignment. `expand` is the parent's flags, not the child's. `base` is `Some(region base)` exactly where the child's `base` was `Some`. `exact` is `Some(current)` exactly where the parent expands or the child's `exact` was `Some`. The new constraints hold of the region they were computed for. |
| Alignment.Realigned | src/library/align.rs:59-77 | The zipped rewrite returns exactly as many results as the child produced. |
| Alignment.Layout | src/library/align.rs:48-79 | Rewriting the child's result vector in place gives exactly the zipped rewrite of the child's layout in the derived child regions. |
| Alignment.ReuseSound | src/library/align.rs:71-74 | If a result's recorded constraints admit another region under the same expansion flags, aligning the same child result for that region gives exactly the same frame and constraints, so the result may be reused there. |
| Alignment.RealignedAt | src/library/align.rs:61-62 | Length and order are preserved. Result `k` is the child's result `k` rewritten with region `k` when `k` is within the region list, and the child's result `k` unchanged past it. |
| Alignment.AlignEntryIdempotent | src/library/align.rs:64-74 | Aligning a result a second time for the same region gives the same frame and constraints. |
| Alignment.RealignedIdempotent | src/library/align.rs:59-77 | Running the rewrite over already aligned results in the same regions changes nothing. |
| Alignment.LayoutConstraints | src/library/align.rs:71-74 | For every rewritten result, `expand` is the parent's flags. `base` is present exactly where the child's was, so it never widens. `exact` is present on every expanding axis. All recorded dependencies hold of the region used. |
| Alignment.FullStretch | src/library/align.rs:54-66 | With no alignment and expansion on both axes, the child sees the parent's regions unchanged and every result has exactly the region's current size. |
| Alignment.AlignedAxisFillsRegion | src/library/align.rs:54-69 | With a horizontal alignment and horizontal expansion, the child is laid out without horizontal expansion. The result still has the region's width, and the child's frame is placed inside it by the alignment. |
| Alignment.NoExpandKeepsFrame | src/library/align.rs:66-69 | When the parent expands on neither axis, the result's frame is the child's frame, whatever the alignment. |
| Alignment.ScenarioNoAlign | src/library/align.rs:54-69 | In an expanding 100 x 50 region with no alignment, a 30 x 10 child frame becomes 100 x 50 with its contents at the origin. |
| Alignment.ScenarioCentered | src/library/align.rs:54-69 | Centered on both axes, the child is laid out without expansion. Its 30 x 10 frame becomes 100 x 50 with its contents at (35, 20). |
| Alignment.ScenarioRightOnly | src/library/align.rs:54-69 | Right-aligned horizontally only, the child still expands vertically. Its 30 x 50 frame becomes 100 x 50 with its contents at x = 70. |

## Left out

- Argument binding (`Args::find`, `Args::expect`, the `dynamic!` and `castable!` macro expansions, `EvalContext`, `Value::block`). `AlignFunction` receives the alignment argument already found and converted, and the body if one was given. A body of the wrong type is a binding error that is not modelled.
- The style cascade (`Styles`, the storage of `ParNode::ALIGN`) and the `styled`/`aligned` wrappers. A node carries only the paragraph alignment it sets, and the result is modelled as an aligned node around a styled body.
- The child's own layout and the `LayoutContext` cache. The child's layout is an arbitrary function of the regions.
- `Rc` reference counting and `Rc::make_mut` copy-on-write. Results are values, so the in-place rewrite cannot be observed through another reference.
- Floating-point lengths. Lengths are exact reals, so rounding is not modelled, and neither are infinite or NaN lengths (an unbounded region size would give an infinite or NaN offset in `Resize`).
- The elements inside a frame. A frame is its size plus the offset of its contents.
- Fields of the constraints record that this file does not touch.
- The endless repetition of the last region in the region iterator. The model uses a finite list, and the zip with the finite result vector never needs more.
