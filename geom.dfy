/**
 * The geometry vocabulary the alignment node is written in: the two layouting
 * axes, per-axis alignments, and `Spec<T>`, a value for each of the two axes,
 * with the per-axis combinators the node uses.
 */
module Geom {
  import opened Prelude

  /** A length. The engine's floating-point lengths are modelled as exact reals
      (finite, without rounding); no arithmetic other than the alignment offset
      below happens on them. */
  type Length = real

  /** The two layouting axes. */
  datatype Axis = Horizontal | Vertical {
    /** The axis orthogonal to this one. */
    function Other(): Axis {
      if Horizontal? then Vertical else Horizontal
    }
  }

  /** An alignment along one axis; each value belongs to exactly one axis. */
  datatype Align = Left | CenterX | Right | Top | CenterY | Bottom {

    /** The axis this alignment applies to. */
    function OnAxis(): Axis {
      if this in {Left, CenterX, Right} then Horizontal else Vertical
    }

    /** Packs against the low edge (left or top). */
    predicate IsStart() { this == Left || this == Top }

    /** Packs against the high edge (right or bottom). */
    predicate IsEnd() { this == Right || this == Bottom }

    /** The offset at which content sits when `slack` space is free on its axis. */
    function Resolve(slack: Length): Length {
      if IsStart() then 0.0 else if IsEnd() then slack else slack / 2.0
    }
  }

  /** A value for each of the two axes. */
  datatype Spec<T> = Spec(x: T, y: T) {

    /** The component on `axis`. */
    function Get(axis: Axis): T {
      if axis.Horizontal? then x else y
    }

    /** This pair with the component on `axis` replaced by `v`. */
    function Set(axis: Axis, v: T): Spec<T> {
      if axis.Horizontal? then Spec(v, y) else Spec(x, v)
    }

    /** Applies `f` to both components. */
    function Map<U>(f: T -> U): Spec<U> {
      Spec(f(x), f(y))
    }
  }

  type Size = Spec<Length>
  type Point = Spec<Length>

  /** Per-axis conjunction (`&` on `Spec<bool>`). */
  function And(a: Spec<bool>, b: Spec<bool>): Spec<bool> {
    Spec(a.x && b.x, a.y && b.y)
  }

  /** Per-axis disjunction (`|` on `Spec<bool>`). */
  function Or(a: Spec<bool>, b: Spec<bool>): Spec<bool> {
    Spec(a.x || b.x, a.y || b.y)
  }

  /** Per axis, the component of `t` where `mask` is set and of `f` elsewhere. */
  function Select<T>(mask: Spec<bool>, t: Spec<T>, f: Spec<T>): Spec<T> {
    Spec(if mask.x then t.x else f.x, if mask.y then t.y else f.y)
  }

  /** Per axis, the component of `s` where `mask` is set and nothing elsewhere. */
  function Filter<T>(s: Spec<T>, mask: Spec<bool>): Spec<Option<T>> {
    Spec(if mask.x then Some(s.x) else None, if mask.y then Some(s.y) else None)
  }

  /** Per axis, whether the component is absent. */
  function MapIsNone<T>(s: Spec<Option<T>>): Spec<bool> {
    Spec(s.x.None?, s.y.None?)
  }

  /** Per axis, whether the component is present. */
  function MapIsSome<T>(s: Spec<Option<T>>): Spec<bool> {
    Spec(s.x.Some?, s.y.Some?)
  }

  /** Per axis, the present component or else the one of `default`. */
  function UnwrapOr<T>(s: Spec<Option<T>>, default: Spec<T>): Spec<T> {
    Spec(if s.x.Some? then s.x.value else default.x,
         if s.y.Some? then s.y.value else default.y)
  }
}
