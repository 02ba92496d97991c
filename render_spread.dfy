/**
  The bounds spread of an EffectText: the padding added to the text's own
  render bounds so that no visible effect layer (its offset plus half its
  stroke width) is clipped. Each side is the largest demand on that side,
  never a sum, since all layers are drawn inside the same padded box.
 */
module RenderSpread {
  import opened EffectConfig

  /** Padding as `[top, right, bottom, left]`. */
  datatype Sides = Sides(top: real, right: real, bottom: real, left: real)

  datatype Side = Top | Right | Bottom | Left

  function Get(s: Sides, side: Side): real
  {
    match side
    case Top => s.top
    case Right => s.right
    case Bottom => s.bottom
    case Left => s.left
  }

  /** The padding one effect needs on one side, whether or not it is visible. */
  function Demand(effect: TextEffect, side: Side): real
  {
    var offset := OffsetValue(effect.offset);
    var strokeSpread := StrokeWidth(effect.stroke) / 2.0;
    var horizontal := DirectionSpread(offset.x, strokeSpread);
    var vertical := DirectionSpread(offset.y, strokeSpread);
    match side
    case Top => vertical.negative
    case Right => horizontal.positive
    case Bottom => vertical.positive
    case Left => horizontal.negative
  }

  /**
    One step of the loop: no side shrinks, a visible effect's demand is met on
    every side, and each side is either what it was or that demand. A hidden
    effect leaves every side as it was.
   */
  function Absorb(acc: Sides, effect: TextEffect): (r: Sides)
    ensures !IsVisible(effect.visible) ==> r == acc
    ensures forall side :: Get(r, side) >= Get(acc, side)
    ensures IsVisible(effect.visible) ==> forall side :: Get(r, side) >= Demand(effect, side)
    ensures forall side :: Get(r, side) == Get(acc, side) || Get(r, side) == Demand(effect, side)
  {
    if !IsVisible(effect.visible) then acc
    else
      Sides(
        Max(acc.top, Demand(effect, Top)),
        Max(acc.right, Demand(effect, Right)),
        Max(acc.bottom, Demand(effect, Bottom)),
        Max(acc.left, Demand(effect, Left)))
  }

  /** The spread after absorbing the effects in list order, starting from the text's own spread. */
  function Spread(base: Sides, effects: seq<TextEffect>): Sides
  {
    if |effects| == 0 then base else Absorb(Spread(base, effects[..|effects| - 1]), effects[|effects| - 1])
  }

  /**
    Each side of the spread is the maximum over the base and the demands of the
    visible effects on that side: it is at least each of them, and it equals one
    of them.
   */
  lemma {:induction false} SpreadIsMaximum(base: Sides, effects: seq<TextEffect>, side: Side)
    ensures Get(Spread(base, effects), side) >= Get(base, side)
    ensures forall i :: 0 <= i < |effects| && IsVisible(effects[i].visible) ==>
      Get(Spread(base, effects), side) >= Demand(effects[i], side)
    ensures Get(Spread(base, effects), side) == Get(base, side) ||
      exists i :: 0 <= i < |effects| && IsVisible(effects[i].visible) &&
        Get(Spread(base, effects), side) == Demand(effects[i], side)
  {
    if |effects| > 0 {
      var n := |effects| - 1;
      var prefix := effects[..n];
      SpreadIsMaximum(base, prefix, side);
      assert forall i :: 0 <= i < n ==> prefix[i] == effects[i];
      var before := Get(Spread(base, prefix), side);
      var after := Get(Spread(base, effects), side);
      if IsVisible(effects[n].visible) && before < Demand(effects[n], side) {
        assert after == Demand(effects[n], side);
      } else {
        assert after == before;
        if before != Get(base, side) {
          var i :| 0 <= i < n && IsVisible(prefix[i].visible) && before == Demand(prefix[i], side);
          assert IsVisible(effects[i].visible) && after == Demand(effects[i], side);
        }
      }
    }
  }

  /** Hidden effects do not count: the spread of a list is the spread of its visible effects alone. */
  lemma {:induction false} SpreadIgnoresHidden(base: Sides, effects: seq<TextEffect>)
    ensures Spread(base, effects) == Spread(base, VisibleOnly(effects))
  {
    if |effects| > 0 {
      var n := |effects| - 1;
      SpreadIgnoresHidden(base, effects[..n]);
      assert effects[..n] + [effects[n]] == effects;
      VisibleOnlyAppend(effects[..n], effects[n]);
      if IsVisible(effects[n].visible) {
        var v := VisibleOnly(effects);
        assert v[..|v| - 1] == VisibleOnly(effects[..n]);
      }
    }
  }

  function VisibleOnly(effects: seq<TextEffect>): (r: seq<TextEffect>)
    ensures forall i :: 0 <= i < |r| ==> IsVisible(r[i].visible)
  {
    if |effects| == 0 then []
    else if IsVisible(effects[|effects| - 1].visible) then VisibleOnly(effects[..|effects| - 1]) + [effects[|effects| - 1]]
    else VisibleOnly(effects[..|effects| - 1])
  }

  lemma VisibleOnlyAppend(effects: seq<TextEffect>, effect: TextEffect)
    ensures VisibleOnly(effects + [effect]) ==
      if IsVisible(effect.visible) then VisibleOnly(effects) + [effect] else VisibleOnly(effects)
  {
  }

  /**
    `__updateRenderSpread`: starting from the text's own spread, absorb every
    effect of `textEffects` in order. An absent or empty list leaves the base.
   */
  method UpdateRenderSpread(rootSpread: Sides, textEffects: Option<seq<TextEffect>>) returns (r: Sides)
    ensures textEffects.None? ==> r == rootSpread
    ensures textEffects.Some? ==> r == Spread(rootSpread, textEffects.value)
  {
    var top, right, bottom, left := rootSpread.top, rootSpread.right, rootSpread.bottom, rootSpread.left;
    if textEffects.None? || |textEffects.value| == 0 {
      return Sides(top, right, bottom, left);
    }
    var effects := textEffects.value;
    var i := 0;
    while i < |effects|
      invariant 0 <= i <= |effects|
      invariant Sides(top, right, bottom, left) == Spread(rootSpread, effects[..i])
    {
      var effect := effects[i];
      assert effects[..i + 1][..i] == effects[..i];
      if IsVisible(effect.visible) {
        var offset := OffsetValue(effect.offset);
        var strokeWidth := StrokeWidth(effect.stroke);
        var strokeSpread := strokeWidth / 2.0;
        var horizontalSpread := DirectionSpread(offset.x, strokeSpread);
        var verticalSpread := DirectionSpread(offset.y, strokeSpread);
        right := Max(right, horizontalSpread.positive);
        left := Max(left, horizontalSpread.negative);
        bottom := Max(bottom, verticalSpread.positive);
        top := Max(top, verticalSpread.negative);
      }
      i := i + 1;
    }
    assert effects[..i] == effects;
    r := Sides(top, right, bottom, left);
  }

  /** From a zero base, two visible layers needing 10 and 4 on the right give a right spread of 10, not 14. */
  lemma SpreadTakesMaximumNotSum()
    ensures
      var wide := TextEffect(Some(Offset(Some(10.0), None, Unset)), None, None, Unset);
      var narrow := TextEffect(Some(Offset(Some(4.0), None, Unset)), None, None, Unset);
      Spread(Sides(0.0, 0.0, 0.0, 0.0), [wide, narrow]).right == 10.0
  {
    var base := Sides(0.0, 0.0, 0.0, 0.0);
    var wide := TextEffect(Some(Offset(Some(10.0), None, Unset)), None, None, Unset);
    var narrow := TextEffect(Some(Offset(Some(4.0), None, Unset)), None, None, Unset);
    assert [wide, narrow][..1] == [wide];
    assert [wide][..0] == [];
    assert Demand(wide, Right) == 10.0;
    assert Demand(narrow, Right) == 4.0;
    assert Spread(base, [wide]).right == 10.0;
  }
}
