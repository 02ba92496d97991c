/**
  The effect configuration model of an EffectText node: the declarative,
  JSON-shaped description of one effect layer, and the helpers that read
  geometry out of it with the engine's defaults (an absent or hidden part
  contributes zero, an absent coordinate is zero).

  JavaScript numbers are modelled as reals; `undefined`/`null` as None.
 */
module EffectConfig {

  datatype Option<T> = None | Some(value: T)

  /** The font size used when the owning text has none, or has 0. */
  const DEFAULT_FONT_SIZE: real := 12.0

  /**
    The loose `visible` flag carried by an effect, its offset and its stroke:
    absent, a boolean, or a number (the engine itself hides instances by
    writing the number 0).
   */
  datatype Visibility = Unset | Flag(b: bool) | Num(n: real)

  /** A fill or stroke colour/gradient description, opaque to the engine. */
  type Paint = string

  datatype Offset = Offset(x: Option<real>, y: Option<real>, visible: Visibility)

  /** A `dashPattern` value: an array of lengths, or something that is not an array. */
  datatype Dash = DashArray(entries: seq<real>) | NotAnArray

  datatype StrokeStyle = StrokeStyle(strokeWidth: Option<real>, dashPattern: Option<Dash>)

  datatype Stroke = Stroke(paint: Paint, style: Option<StrokeStyle>, visible: Visibility)

  /** One layer of a text effect (`ITextEffect`). */
  datatype TextEffect = TextEffect(
    offset: Option<Offset>,
    stroke: Option<Stroke>,
    fill: Option<Paint>,
    visible: Visibility)

  datatype Point = Point(x: real, y: real)

  /** Padding needed along one axis, on its positive and its negative side. */
  datatype DirSpread = DirSpread(positive: real, negative: real)

  /** Visibility test: only an explicit false or zero hides; an absent flag means visible. */
  function IsVisible(v: Visibility): (r: bool)
    ensures !r <==> v == Flag(false) || v == Num(0.0)
    ensures v == Unset ==> r
  {
    match v
    case Unset => true
    case Flag(b) => b
    case Num(n) => n != 0.0
  }

  /** An optional number with absence read as zero. */
  function OrZero(v: Option<real>): real
  {
    if v.Some? then v.value else 0.0
  }

  function Abs(x: real): real
  {
    if x < 0.0 then -x else x
  }

  function Max(a: real, b: real): real
  {
    if a < b then b else a
  }

  /** Every entry of a list of lengths multiplied by k. */
  function ScaleAll(xs: seq<real>, k: real): (r: seq<real>)
    ensures |r| == |xs|
    ensures forall i :: 0 <= i < |xs| ==> r[i] == xs[i] * k
  {
    seq(|xs|, i requires 0 <= i < |xs| => xs[i] * k)
  }

  /** The offset an effect contributes: (0, 0) when absent or hidden, else its coordinates with 0 for a missing one. */
  function OffsetValue(offset: Option<Offset>): (p: Point)
    ensures offset.None? || !IsVisible(offset.value.visible) ==> p == Point(0.0, 0.0)
    ensures offset.Some? && IsVisible(offset.value.visible) ==>
      (offset.value.x.None? ==> p.x == 0.0) && (offset.value.x.Some? ==> p.x == offset.value.x.value) &&
      (offset.value.y.None? ==> p.y == 0.0) && (offset.value.y.Some? ==> p.y == offset.value.y.value)
  {
    if offset.None? || !IsVisible(offset.value.visible) then Point(0.0, 0.0)
    else Point(OrZero(offset.value.x), OrZero(offset.value.y))
  }

  /** The stroke width an effect contributes: 0 when the stroke is absent or hidden, or has no width. */
  function StrokeWidth(stroke: Option<Stroke>): (w: real)
    ensures stroke.None? || !IsVisible(stroke.value.visible) ==> w == 0.0
    ensures w != 0.0 <==>
      stroke.Some? && IsVisible(stroke.value.visible) && stroke.value.style.Some? &&
      stroke.value.style.value.strokeWidth.Some? && stroke.value.style.value.strokeWidth.value != 0.0
    ensures w != 0.0 ==> stroke.value.style.value.strokeWidth == Some(w)
  {
    if stroke.None? || !IsVisible(stroke.value.visible) then 0.0
    else if stroke.value.style.None? then 0.0
    else OrZero(stroke.value.style.value.strokeWidth)
  }

  /** The dash pattern an effect contributes: present only for a visible stroke whose pattern is a non-empty array. */
  function DashPattern(stroke: Option<Stroke>): (d: Option<seq<real>>)
    ensures d.Some? <==>
      stroke.Some? && IsVisible(stroke.value.visible) && stroke.value.style.Some? &&
      stroke.value.style.value.dashPattern.Some? && stroke.value.style.value.dashPattern.value.DashArray? &&
      |stroke.value.style.value.dashPattern.value.entries| > 0
    ensures d.Some? ==> d.value == stroke.value.style.value.dashPattern.value.entries
  {
    if stroke.None? || !IsVisible(stroke.value.visible) || stroke.value.style.None? then None
    else
      match stroke.value.style.value.dashPattern
      case Some(DashArray(entries)) => if |entries| > 0 then Some(entries) else None
      case _ => None
  }

  /**
    Padding along one axis for an effect shifted by `offset` whose stroke
    reaches `strokeSpread` beyond its outline: the whole shift plus the stroke
    goes to the side the copy moves to; an unshifted copy needs the stroke on
    both sides.
   */
  function DirectionSpread(offset: real, strokeSpread: real): (r: DirSpread)
    ensures offset < 0.0 ==> r == DirSpread(0.0, Abs(offset) + strokeSpread)
    ensures offset > 0.0 ==> r == DirSpread(offset + strokeSpread, 0.0)
    ensures offset == 0.0 ==> r == DirSpread(strokeSpread, strokeSpread)
  {
    if offset < 0.0 then DirSpread(0.0, Abs(offset) + strokeSpread)
    else if offset > 0.0 then DirSpread(offset + strokeSpread, 0.0)
    else DirSpread(strokeSpread, strokeSpread)
  }

  /** Shifting the copy the other way swaps the two sides of the padding. */
  lemma DirectionSpreadMirror(offset: real, strokeSpread: real)
    ensures DirectionSpread(-offset, strokeSpread) ==
      DirSpread(DirectionSpread(offset, strokeSpread).negative, DirectionSpread(offset, strokeSpread).positive)
  {
  }

  /** The larger side of the padding is the full shift plus the stroke; the other is 0 unless there is no shift. */
  lemma DirectionSpreadExtent(offset: real, strokeSpread: real)
    requires strokeSpread >= 0.0
    ensures Max(DirectionSpread(offset, strokeSpread).positive, DirectionSpread(offset, strokeSpread).negative)
      == Abs(offset) + strokeSpread
    ensures offset != 0.0 ==>
      DirectionSpread(offset, strokeSpread).positive == 0.0 || DirectionSpread(offset, strokeSpread).negative == 0.0
  {
  }
}
