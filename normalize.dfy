/**
  `normalizeTextEffects`: rescale an effect list authored for one font size
  so that it keeps its proportions at another (used for fixed-size previews).
  The source works on a JSON deep copy; here every value is a value, so the
  caller's list is never changed.
 */
module Normalize {
  import opened EffectConfig

  /** A visible offset is rebuilt from its coordinates (a missing one read as zero) times k, without a visibility flag; any other offset is kept. */
  function RescaleOffset(offset: Option<Offset>, k: real): Option<Offset>
  {
    if offset.Some? && IsVisible(offset.value.visible) then
      Some(Offset(Some(OrZero(offset.value.x) * k), Some(OrZero(offset.value.y) * k), Unset))
    else offset
  }

  /**
    A stroke with a style has a non-zero width multiplied by k and every entry
    of an array dash pattern multiplied by k. The stroke's own visibility is
    not consulted.
   */
  function RescaleStroke(stroke: Option<Stroke>, k: real): Option<Stroke>
  {
    if stroke.Some? && stroke.value.style.Some? then
      var style := stroke.value.style.value;
      var width :=
        if style.strokeWidth.Some? && style.strokeWidth.value != 0.0 then Some(style.strokeWidth.value * k)
        else style.strokeWidth;
      var dash :=
        if style.dashPattern.Some? && style.dashPattern.value.DashArray? then
          Some(DashArray(ScaleAll(style.dashPattern.value.entries, k)))
        else style.dashPattern;
      Some(stroke.value.(style := Some(StrokeStyle(width, dash))))
    else stroke
  }

  function RescaleEffect(effect: TextEffect, k: real): TextEffect
  {
    effect.(offset := RescaleOffset(effect.offset, k), stroke := RescaleStroke(effect.stroke, k))
  }

  /** A list is rescaled only when it is present and non-empty and the two font sizes differ. */
  predicate Rescales(effects: Option<seq<TextEffect>>, sourceFontSize: real, targetFontSize: real)
  {
    effects.Some? && |effects.value| > 0 && sourceFontSize != targetFontSize
  }

  /**
    The effect list as authored at `sourceFontSize`, rescaled by
    targetFontSize / sourceFontSize. An absent or empty list, or equal sizes,
    give the input back unchanged.
   */
  function NormalizeTextEffects(effects: Option<seq<TextEffect>>, sourceFontSize: real, targetFontSize: real)
    : (r: Option<seq<TextEffect>>)
    requires Rescales(effects, sourceFontSize, targetFontSize) ==> sourceFontSize != 0.0
    ensures !Rescales(effects, sourceFontSize, targetFontSize) ==> r == effects
    ensures Rescales(effects, sourceFontSize, targetFontSize) ==>
      r.Some? && |r.value| == |effects.value| &&
      forall i :: 0 <= i < |r.value| ==>
        r.value[i] == RescaleEffect(effects.value[i], targetFontSize / sourceFontSize)
  {
    if effects.None? || |effects.value| == 0 then effects
    else if sourceFontSize == targetFontSize then effects
    else
      var scale := targetFontSize / sourceFontSize;
      var list := effects.value;
      Some(seq(|list|, i requires 0 <= i < |list| => RescaleEffect(list[i], scale)))
  }

  lemma {:induction false} ScaleAllCompose(xs: seq<real>, k: real, k': real)
    ensures ScaleAll(ScaleAll(xs, k), k') == ScaleAll(xs, k * k')
  {
    forall i | 0 <= i < |xs|
      ensures ScaleAll(ScaleAll(xs, k), k')[i] == ScaleAll(xs, k * k')[i]
    {
      calc {
        ScaleAll(ScaleAll(xs, k), k')[i];
        (xs[i] * k) * k';
        xs[i] * (k * k');
      }
    }
  }

  lemma ScaleAllByOne(xs: seq<real>)
    ensures ScaleAll(xs, 1.0) == xs
  {
  }

  /**
    What the engine reads out of a rescaled effect (its offset, stroke width
    and dash pattern, with all defaults and visibility rules applied) is what
    it read out of the original, multiplied by k. Visibility and fill are
    untouched.
   */
  lemma RescaleScalesGeometry(effect: TextEffect, k: real)
    ensures OffsetValue(RescaleEffect(effect, k).offset) ==
      Point(OffsetValue(effect.offset).x * k, OffsetValue(effect.offset).y * k)
    ensures StrokeWidth(RescaleEffect(effect, k).stroke) == StrokeWidth(effect.stroke) * k
    ensures DashPattern(RescaleEffect(effect, k).stroke) ==
      if DashPattern(effect.stroke).Some? then Some(ScaleAll(DashPattern(effect.stroke).value, k)) else None
    ensures RescaleEffect(effect, k).visible == effect.visible && RescaleEffect(effect, k).fill == effect.fill
  {
  }

  lemma RescaleOffsetCompose(offset: Option<Offset>, k: real, k': real)
    ensures RescaleOffset(RescaleOffset(offset, k), k') == RescaleOffset(offset, k * k')
  {
    if offset.Some? && IsVisible(offset.value.visible) {
      var x, y := OrZero(offset.value.x), OrZero(offset.value.y);
      var once := RescaleOffset(offset, k);
      var twice := RescaleOffset(once, k');
      var direct := RescaleOffset(offset, k * k');
      assert once.value.x.value == x * k && once.value.y.value == y * k;
      assert (x * k) * k' == x * (k * k');
      assert (y * k) * k' == y * (k * k');
      assert twice.value.x.value == direct.value.x.value;
      assert twice.value.y.value == direct.value.y.value;
    }
  }

  lemma RescaleStrokeCompose(stroke: Option<Stroke>, k: real, k': real)
    ensures RescaleStroke(RescaleStroke(stroke, k), k') == RescaleStroke(stroke, k * k')
  {
    if stroke.Some? && stroke.value.style.Some? {
      var style := stroke.value.style.value;
      var once := RescaleStroke(stroke, k).value.style.value;
      var twice := RescaleStroke(RescaleStroke(stroke, k), k').value.style.value;
      var direct := RescaleStroke(stroke, k * k').value.style.value;
      if style.strokeWidth.Some? && style.strokeWidth.value != 0.0 {
        var w := style.strokeWidth.value;
        assert once.strokeWidth.value == w * k;
        assert direct.strokeWidth.value == w * (k * k');
        if w * k == 0.0 {
          assert k == 0.0;
          assert twice.strokeWidth.value == w * k;
        } else {
          assert twice.strokeWidth.value == (w * k) * k';
        }
        assert (w * k) * k' == w * (k * k');
        assert twice.strokeWidth.value == direct.strokeWidth.value;
      }
      assert twice.strokeWidth == direct.strokeWidth;
      if style.dashPattern.Some? && style.dashPattern.value.DashArray? {
        ScaleAllCompose(style.dashPattern.value.entries, k, k');
      }
      assert twice.dashPattern == direct.dashPattern;
    }
  }

  /** Rescaling by k and then by k' is rescaling once by k * k'. */
  lemma RescaleCompose(effect: TextEffect, k: real, k': real)
    ensures RescaleEffect(RescaleEffect(effect, k), k') == RescaleEffect(effect, k * k')
  {
    RescaleOffsetCompose(effect.offset, k, k');
    RescaleStrokeCompose(effect.stroke, k, k');
  }

  /**
    Normalising from s to t and the result from t to u is normalising from s
    to u directly, for three distinct non-zero font sizes.
   */
  lemma NormalizeChain(effects: Option<seq<TextEffect>>, s: real, t: real, u: real)
    requires s != 0.0 && t != 0.0 && u != 0.0
    requires s != t && t != u && s != u
    ensures NormalizeTextEffects(NormalizeTextEffects(effects, s, t), t, u) == NormalizeTextEffects(effects, s, u)
  {
    if effects.Some? && |effects.value| > 0 {
      var once := NormalizeTextEffects(effects, s, t);
      var twice := NormalizeTextEffects(once, t, u);
      var direct := NormalizeTextEffects(effects, s, u);
      assert (t / s) * (u / t) == u / s;
      forall i | 0 <= i < |effects.value|
        ensures twice.value[i] == direct.value[i]
      {
        var e := effects.value[i];
        var k, k' := t / s, u / t;
        assert once.value[i] == RescaleEffect(e, k);
        assert twice.value[i] == RescaleEffect(RescaleEffect(e, k), k');
        RescaleCompose(e, k, k');
        assert k * k' == u / s;
        assert direct.value[i] == RescaleEffect(e, u / s);
      }
      assert twice.value == direct.value;
    }
  }

  /**
    Normalising from s to t and back from t to s gives, for every effect, the
    same offset, stroke width and dash pattern as the engine reads from the
    original list.
   */
  lemma NormalizeRoundTrip(effects: Option<seq<TextEffect>>, s: real, t: real)
    requires s != 0.0 && t != 0.0
    ensures var back := NormalizeTextEffects(NormalizeTextEffects(effects, s, t), t, s);
      back.Some? == effects.Some? &&
      (back.Some? ==>
         |back.value| == |effects.value| &&
         forall i :: 0 <= i < |back.value| ==>
           OffsetValue(back.value[i].offset) == OffsetValue(effects.value[i].offset) &&
           StrokeWidth(back.value[i].stroke) == StrokeWidth(effects.value[i].stroke) &&
           DashPattern(back.value[i].stroke) == DashPattern(effects.value[i].stroke))
  {
    var back := NormalizeTextEffects(NormalizeTextEffects(effects, s, t), t, s);
    if effects.Some? && |effects.value| > 0 && s != t {
      assert (t / s) * (s / t) == 1.0;
      forall i | 0 <= i < |effects.value|
        ensures OffsetValue(back.value[i].offset) == OffsetValue(effects.value[i].offset)
        ensures StrokeWidth(back.value[i].stroke) == StrokeWidth(effects.value[i].stroke)
        ensures DashPattern(back.value[i].stroke) == DashPattern(effects.value[i].stroke)
      {
        var e := effects.value[i];
        var once := NormalizeTextEffects(effects, s, t);
        var k, k' := t / s, s / t;
        assert once.value[i] == RescaleEffect(e, k);
        assert back.value[i] == RescaleEffect(RescaleEffect(e, k), k');
        RescaleCompose(e, k, k');
        assert k * k' == 1.0;
        assert back.value[i] == RescaleEffect(e, 1.0);
        RescaleScalesGeometry(e, 1.0);
        if DashPattern(e.stroke).Some? {
          ScaleAllByOne(DashPattern(e.stroke).value);
        }
      }
    }
  }
}
