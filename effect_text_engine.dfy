/**
  The effect-instance engine of an EffectText node (`EffectTextData`).

  The node keeps its effect list, a table of per-effect ratios and a group of
  duplicate render nodes ("instances"), index-aligned with the list. Assigning
  a list records each effect's absolute offset, stroke width and dash pattern
  in the ratio table and reconciles the group (reuse by index, create the
  rest, hide the surplus). The first position sync afterwards divides the
  table by the font size of that moment; every sync multiplies it back by the
  current font size and writes the result into both the instance and the
  effect config.
 */
module EffectTextEngine {
  import opened EffectConfig

  /** `IEffectRatio`: absolute values until the first sync divides them by the font size. */
  datatype EffectRatio = EffectRatio(
    offsetXRatio: real,
    offsetYRatio: real,
    strokeWidthRatio: real,
    dashPatternRatios: Option<seq<real>>)

  /** Absolute geometry of one effect at one font size. */
  datatype Geometry = Geometry(x: real, y: real, strokeWidth: real, dashPattern: Option<seq<real>>)

  /** The properties of an instance that the engine writes. */
  datatype InstanceState = InstanceState(
    x: real,
    y: real,
    visible: Visibility,
    fill: Option<Paint>,
    stroke: Option<Stroke>)

  /** A list is applied only when it is present and non-empty. */
  predicate HasEffects(value: Option<seq<TextEffect>>)
  {
    value.Some? && |value.value| > 0
  }

  /** The owning text's font size, falling back to the default when it is absent or zero. */
  function EffectiveFontSize(fontSize: Option<real>): (f: real)
    ensures f != 0.0
    ensures fontSize.Some? && fontSize.value != 0.0 ==> f == fontSize.value
    ensures fontSize.None? || fontSize.value == 0.0 ==> f == DEFAULT_FONT_SIZE
  {
    if fontSize.Some? && fontSize.value != 0.0 then fontSize.value else DEFAULT_FONT_SIZE
  }

  /** What `recordAbsoluteValues` stores for one effect. */
  function AbsoluteValues(effect: TextEffect): EffectRatio
  {
    var offset := OffsetValue(effect.offset);
    EffectRatio(offset.x, offset.y, StrokeWidth(effect.stroke), DashPattern(effect.stroke))
  }

  function RecordedValues(effects: seq<TextEffect>): (r: seq<EffectRatio>)
    ensures |r| == |effects|
    ensures forall i :: 0 <= i < |effects| ==> r[i] == AbsoluteValues(effects[i])
  {
    seq(|effects|, i requires 0 <= i < |effects| => AbsoluteValues(effects[i]))
  }

  function DivideAll(xs: seq<real>, f: real): (r: seq<real>)
    requires f != 0.0
    ensures |r| == |xs|
    ensures forall i :: 0 <= i < |xs| ==> r[i] == xs[i] / f
  {
    seq(|xs|, i requires 0 <= i < |xs| => xs[i] / f)
  }

  /** The one-off normalisation of a recorded entry by the font size of the first sync. */
  function ToRatio(ratio: EffectRatio, f: real): EffectRatio
    requires f != 0.0
  {
    EffectRatio(
      ratio.offsetXRatio / f,
      ratio.offsetYRatio / f,
      ratio.strokeWidthRatio / f,
      if ratio.dashPatternRatios.Some? then Some(DivideAll(ratio.dashPatternRatios.value, f)) else None)
  }

  function ToRatios(ratios: seq<EffectRatio>, f: real): (r: seq<EffectRatio>)
    requires f != 0.0
    ensures |r| == |ratios|
    ensures forall i :: 0 <= i < |ratios| ==> r[i] == ToRatio(ratios[i], f)
  {
    seq(|ratios|, i requires 0 <= i < |ratios| => ToRatio(ratios[i], f))
  }

  /** The geometry a ratio gives at font size f. */
  function Actual(ratio: EffectRatio, f: real): Geometry
  {
    Geometry(
      ratio.offsetXRatio * f,
      ratio.offsetYRatio * f,
      ratio.strokeWidthRatio * f,
      if ratio.dashPatternRatios.Some? then Some(ScaleAll(ratio.dashPatternRatios.value, f)) else None)
  }

  /** The geometry an entry held before normalisation, read as absolute values. */
  function AsGeometry(ratio: EffectRatio): Geometry
  {
    Geometry(ratio.offsetXRatio, ratio.offsetYRatio, ratio.strokeWidthRatio, ratio.dashPatternRatios)
  }

  function WithStrokeWidth(stroke: Stroke, width: real): Stroke
    requires stroke.style.Some?
  {
    stroke.(style := Some(stroke.style.value.(strokeWidth := Some(width))))
  }

  function WithDashPattern(stroke: Stroke, dash: seq<real>): Stroke
    requires stroke.style.Some?
  {
    stroke.(style := Some(stroke.style.value.(dashPattern := Some(DashArray(dash)))))
  }

  /** A stroke with a style gets the width, and the dash pattern when there is one; any other stroke is kept. */
  function SyncedStroke(stroke: Option<Stroke>, g: Geometry): Option<Stroke>
  {
    if stroke.Some? && stroke.value.style.Some? then
      var widened := WithStrokeWidth(stroke.value, g.strokeWidth);
      Some(if g.dashPattern.Some? then WithDashPattern(widened, g.dashPattern.value) else widened)
    else stroke
  }

  /** The effect config after a sync: its offset keeps its visibility flag and takes the new x and y; the stroke is written as for the instance. */
  function SyncedEffect(effect: TextEffect, g: Geometry): TextEffect
  {
    effect.(
      offset := Some(Offset(Some(g.x), Some(g.y), if effect.offset.Some? then effect.offset.value.visible else Unset)),
      stroke := SyncedStroke(effect.stroke, g))
  }

  /** The instance after a sync: new x and y, and the stroke written as for the config. */
  function SyncedState(state: InstanceState, g: Geometry): InstanceState
  {
    state.(x := g.x, y := g.y, stroke := SyncedStroke(state.stroke, g))
  }

  /** The properties `updateOrCreateEffectTexts` gives the instance of an effect. */
  function InputFor(effect: TextEffect): InstanceState
  {
    var offset := OffsetValue(effect.offset);
    InstanceState(offset.x, offset.y, Flag(IsVisible(effect.visible)), effect.fill, effect.stroke)
  }

  lemma DivideThenScale(xs: seq<real>, f: real)
    requires f != 0.0
    ensures ScaleAll(DivideAll(xs, f), f) == xs
  {
    forall i | 0 <= i < |xs|
      ensures ScaleAll(DivideAll(xs, f), f)[i] == xs[i]
    {
      assert (xs[i] / f) * f == xs[i];
    }
  }

  /**
    At the font size of the first sync, the geometry written is exactly the
    absolute geometry recorded when the list was assigned.
   */
  lemma FirstSyncRestoresAbsolute(ratio: EffectRatio, f: real)
    requires f != 0.0
    ensures Actual(ToRatio(ratio, f), f) == AsGeometry(ratio)
  {
    var g := Actual(ToRatio(ratio, f), f);
    assert (ratio.offsetXRatio / f) * f == ratio.offsetXRatio;
    assert (ratio.offsetYRatio / f) * f == ratio.offsetYRatio;
    assert (ratio.strokeWidthRatio / f) * f == ratio.strokeWidthRatio;
    if ratio.dashPatternRatios.Some? {
      DivideThenScale(ratio.dashPatternRatios.value, f);
      assert g.dashPattern.value == ratio.dashPatternRatios.value;
    }
  }

  /** Geometry is proportional to the font size: at k times the size, every length is k times as long. */
  lemma ActualIsProportional(ratio: EffectRatio, f: real, k: real)
    ensures Actual(ratio, f * k).x == Actual(ratio, f).x * k
    ensures Actual(ratio, f * k).y == Actual(ratio, f).y * k
    ensures Actual(ratio, f * k).strokeWidth == Actual(ratio, f).strokeWidth * k
    ensures Actual(ratio, f * k).dashPattern ==
      if ratio.dashPatternRatios.Some? then Some(ScaleAll(Actual(ratio, f).dashPattern.value, k)) else None
  {
    assert ratio.offsetXRatio * (f * k) == (ratio.offsetXRatio * f) * k;
    assert ratio.offsetYRatio * (f * k) == (ratio.offsetYRatio * f) * k;
    assert ratio.strokeWidthRatio * (f * k) == (ratio.strokeWidthRatio * f) * k;
    if ratio.dashPatternRatios.Some? {
      var xs := ratio.dashPatternRatios.value;
      forall i | 0 <= i < |xs|
        ensures ScaleAll(xs, f * k)[i] == ScaleAll(ScaleAll(xs, f), k)[i]
      {
        assert xs[i] * (f * k) == (xs[i] * f) * k;
      }
      assert ScaleAll(xs, f * k) == ScaleAll(ScaleAll(xs, f), k);
    }
  }

  /** Writing the same geometry a second time changes neither the config nor the instance. */
  lemma SyncIsIdempotent(effect: TextEffect, state: InstanceState, g: Geometry)
    ensures SyncedEffect(SyncedEffect(effect, g), g) == SyncedEffect(effect, g)
    ensures SyncedState(SyncedState(state, g), g) == SyncedState(state, g)
  {
  }

  /**
    The config written back by the first sync records to the same absolute
    values as the config it replaced: assigning the synced list again leaves
    the ratio table as it was.
   */
  lemma SyncedConfigRecordsSameValues(effect: TextEffect, f: real)
    requires f != 0.0
    ensures AbsoluteValues(SyncedEffect(effect, Actual(ToRatio(AbsoluteValues(effect), f), f))) == AbsoluteValues(effect)
  {
    var recorded := AbsoluteValues(effect);
    var g := Actual(ToRatio(recorded, f), f);
    FirstSyncRestoresAbsolute(recorded, f);
    assert g == AsGeometry(recorded);
    var synced := SyncedEffect(effect, g);
    if effect.offset.Some? && !IsVisible(effect.offset.value.visible) {
      assert OffsetValue(synced.offset) == Point(0.0, 0.0);
    } else {
      assert synced.offset.value.x.value == g.x && synced.offset.value.y.value == g.y;
      assert OffsetValue(synced.offset) == Point(g.x, g.y);
    }
    var s := effect.stroke;
    if s.Some? && s.value.style.Some? {
      var style := synced.stroke.value.style.value;
      assert synced.stroke.value.visible == s.value.visible;
      assert style.strokeWidth.value == g.strokeWidth;
      if IsVisible(s.value.visible) {
        assert StrokeWidth(synced.stroke) == g.strokeWidth;
        if g.dashPattern.Some? {
          assert style.dashPattern.value.entries == g.dashPattern.value;
          assert DashPattern(synced.stroke) == g.dashPattern;
        } else {
          assert style.dashPattern == s.value.style.value.dashPattern;
        }
      }
    }
  }

  /** A render node duplicated from the text: one effect layer. */
  class Instance {
    var x: real
    var y: real
    var visible: Visibility
    var fill: Option<Paint>
    var stroke: Option<Stroke>

    function State(): InstanceState
      reads this
    {
      InstanceState(x, y, visible, fill, stroke)
    }

    /** A new text node created by the host's factory, holding the given properties. */
    constructor (input: InstanceState)
      ensures State() == input
    {
      x, y, visible, fill, stroke := input.x, input.y, input.visible, input.fill, input.stroke;
    }

    /** The host's bulk property update: every given property is overwritten. */
    method Set(input: InstanceState)
      modifies this
      ensures State() == input
    {
      x, y, visible, fill, stroke := input.x, input.y, input.visible, input.fill, input.stroke;
    }
  }

  predicate Distinct(instances: seq<Instance>)
  {
    forall i, j :: 0 <= i < j < |instances| ==> instances[i] != instances[j]
  }

  class EffectTextData {
    /** `_textEffects`: the assigned list, rewritten in place by every sync. */
    var textEffects: Option<seq<TextEffect>>
    /** `__effectTextGroup`, mirrored on the owning text as its own `__effectTextGroup`. */
    var group: Option<seq<Instance>>
    /** `__effectRatios`. */
    var ratios: Option<seq<EffectRatio>>
    /** `__ratiosInitialized`: whether the table already holds ratios rather than absolute values. */
    var ratiosInitialized: bool

    constructor ()
      ensures textEffects.None? && group.None? && ratios.None? && !ratiosInitialized
      ensures Valid()
    {
      textEffects, group, ratios, ratiosInitialized := None, None, None, false;
    }

    /** The instances of the group (none when there is no group). */
    function Pool(): (p: seq<Instance>)
      reads this
      ensures group.None? ==> p == []
      ensures group.Some? ==> p == group.value
    {
      if group.Some? then group.value else []
    }

    /**
      The group holds distinct instances; a non-empty group is index-aligned
      with the list and the ratio table, and each instance carries its
      effect's stroke.
     */
    ghost predicate Valid()
      reads this, Pool()
    {
      && Distinct(Pool())
      && (|Pool()| > 0 ==>
            && textEffects.Some? && |textEffects.value| == |Pool()|
            && ratios.Some? && |ratios.value| == |Pool()|
            && forall i :: 0 <= i < |Pool()| ==> Pool()[i].stroke == textEffects.value[i].stroke)
    }

    /**
      `updateEffectPositions` reads `_textEffects[index]` for every ratio entry
      before it checks for an instance: with a group present and a non-empty
      table, an absent list makes it throw.
     */
    predicate CanSync()
      reads this
    {
      !(group.Some? && ratios.Some? && |ratios.value| > 0 && textEffects.None?)
    }

    /** `setTextEffects`: apply a present non-empty list, otherwise clear; store the value either way. */
    method SetTextEffects(value: Option<seq<TextEffect>>)
      requires Valid()
      modifies this, Pool()
      ensures Valid()
      ensures textEffects == value
      ensures HasEffects(value) ==>
        && ratios == Some(RecordedValues(value.value))
        && !ratiosInitialized
        && group.Some? && |Pool()| == |value.value|
        && (forall i :: 0 <= i < |Pool()| && i < |old(Pool())| ==> Pool()[i] == old(Pool())[i])
        && (forall i :: |old(Pool())| <= i < |Pool()| ==> fresh(Pool()[i]))
        && (forall i :: 0 <= i < |Pool()| ==> Pool()[i].State() == InputFor(value.value[i]))
        && (forall i :: |Pool()| <= i < |old(Pool())| ==>
              old(Pool())[i].State() == old(Pool()[i].State()).(visible := Num(0.0)))
      ensures !HasEffects(value) ==>
        && ratios == old(ratios) && ratiosInitialized == old(ratiosInitialized)
        && group == (if |old(Pool())| > 0 then Some([]) else old(group))
        && (forall i :: 0 <= i < |old(Pool())| ==>
              old(Pool())[i].State() == old(Pool()[i].State()).(visible := Num(0.0)))
    {
      if value.Some? && |value.value| > 0 {
        RecordAbsoluteValues(value.value);
        UpdateOrCreateEffectTexts(value.value);
      } else {
        ClearAllEffects();
      }
      textEffects := value;
    }

    /** `recordAbsoluteValues`: one entry per effect holding its absolute geometry, not yet normalised. */
    method RecordAbsoluteValues(effects: seq<TextEffect>)
      modifies this`ratios, this`ratiosInitialized
      ensures ratios.Some? && |ratios.value| == |effects| && !ratiosInitialized
      ensures forall i :: 0 <= i < |effects| ==>
        Point(ratios.value[i].offsetXRatio, ratios.value[i].offsetYRatio) == OffsetValue(effects[i].offset) &&
        ratios.value[i].strokeWidthRatio == StrokeWidth(effects[i].stroke) &&
        ratios.value[i].dashPatternRatios == DashPattern(effects[i].stroke)
      ensures ratios == Some(RecordedValues(effects))
    {
      ratios := Some(seq(|effects|, i requires 0 <= i < |effects| => AbsoluteValues(effects[i])));
      ratiosInitialized := false;
    }

    /**
      `updateOrCreateEffectTexts`: the new group has one instance per effect,
      the old instance at the same index when there is one and a new one
      otherwise, each given its effect's properties; old instances past the
      new length are hidden with `visible = 0` and leave the group.
     */
    method UpdateOrCreateEffectTexts(effects: seq<TextEffect>)
      requires Distinct(Pool())
      modifies this`group, Pool()
      ensures group.Some? && |Pool()| == |effects| && Distinct(Pool())
      ensures forall i :: 0 <= i < |Pool()| && i < |old(Pool())| ==> Pool()[i] == old(Pool())[i]
      ensures forall i :: |old(Pool())| <= i < |Pool()| ==> fresh(Pool()[i])
      ensures forall i :: 0 <= i < |Pool()| ==> Pool()[i].State() == InputFor(effects[i])
      ensures forall i :: |effects| <= i < |old(Pool())| ==>
        old(Pool())[i].State() == old(Pool()[i].State()).(visible := Num(0.0))
    {
      var existing := Pool();
      var newGroup: seq<Instance> := [];
      var i := 0;
      while i < |effects|
        invariant 0 <= i <= |effects| && |newGroup| == i
        invariant group == old(group)
        invariant forall j :: 0 <= j < i && j < |existing| ==> newGroup[j] == existing[j]
        invariant forall j :: |existing| <= j < i ==> fresh(newGroup[j])
        invariant Distinct(newGroup)
        invariant forall j :: 0 <= j < i ==> newGroup[j].State() == InputFor(effects[j])
        invariant forall j :: i <= j < |existing| ==> existing[j].State() == old(existing[j].State())
      {
        var input := InputFor(effects[i]);
        var text: Instance;
        if i < |existing| {
          text := existing[i];
          text.Set(input);
        } else {
          text := new Instance(input);
        }
        newGroup := newGroup + [text];
        i := i + 1;
      }
      label built:
      HideFrom(existing, |effects|);
      assert forall j :: 0 <= j < |newGroup| ==> newGroup[j].State() == old@built(newGroup[j].State());
      group := Some(newGroup);
    }

    /** `clearAllEffects`: a non-empty group has every instance hidden and is replaced by an empty one. */
    method ClearAllEffects()
      requires Distinct(Pool())
      modifies this`group, Pool()
      ensures group == (if |old(Pool())| > 0 then Some([]) else old(group))
      ensures forall i :: 0 <= i < |old(Pool())| ==>
        old(Pool())[i].State() == old(Pool()[i].State()).(visible := Num(0.0))
    {
      if group.Some? && |group.value| > 0 {
        HideFrom(group.value, 0);
        group := Some([]);
      }
    }

    /**
      `updateEffectPositions`: without a group or a table, nothing happens.
      Otherwise the table is normalised by the current font size if it still
      holds absolute values, and every instance and its effect config get the
      table's geometry at the current font size.
     */
    method UpdateEffectPositions(fontSize: Option<real>)
      requires Valid() && CanSync()
      modifies this, Pool()
      ensures Valid() && CanSync()
      ensures group == old(group)
      ensures old(group.None? || ratios.None?) ==> unchanged(this) && unchanged(Pool())
      ensures old(group.Some? && ratios.Some?) ==>
        && ratiosInitialized
        && ratios == Some(if old(ratiosInitialized) then old(ratios.value)
                          else ToRatios(old(ratios.value), EffectiveFontSize(fontSize)))
        && (forall i :: 0 <= i < |Pool()| ==>
              Pool()[i].State() == SyncedState(old(Pool()[i].State()), Actual(ratios.value[i], EffectiveFontSize(fontSize))))
        && (|Pool()| == 0 ==> textEffects == old(textEffects))
        && (|Pool()| > 0 ==>
              && textEffects.Some? && |textEffects.value| == |Pool()|
              && forall i :: 0 <= i < |Pool()| ==>
                   textEffects.value[i] ==
                     SyncedEffect(old(textEffects.value[i]), Actual(ratios.value[i], EffectiveFontSize(fontSize))))
    {
      if group.None? || ratios.None? {
        return;
      }
      var f := EffectiveFontSize(fontSize);
      if !ratiosInitialized {
        var table := NormalizeRatios(ratios.value, f);
        ratios := Some(table);
        ratiosInitialized := true;
      }
      var instances := group.value;
      if |instances| > 0 {
        var synced := SyncGroup(instances, textEffects.value, ratios.value, f);
        textEffects := Some(synced);
      }
    }
  }

  /** Hide every instance from index `from` on with `visible = 0`; nothing else changes. */
  method HideFrom(instances: seq<Instance>, from: nat)
    requires Distinct(instances)
    modifies instances
    ensures forall j :: from <= j < |instances| ==>
      instances[j].State() == old(instances[j].State()).(visible := Num(0.0))
    ensures forall j :: 0 <= j < from && j < |instances| ==> instances[j].State() == old(instances[j].State())
  {
    var k := from;
    while k < |instances|
      invariant from <= k
      invariant forall j :: from <= j < k && j < |instances| ==>
        instances[j].State() == old(instances[j].State()).(visible := Num(0.0))
      invariant forall j :: (j < from || k <= j) && 0 <= j < |instances| ==>
        instances[j].State() == old(instances[j].State())
    {
      instances[k].visible := Num(0.0);
      k := k + 1;
    }
  }

  /**
    The sync loop over an index-aligned group, list and ratio table: each
    instance and its effect config get the ratio's geometry at font size f.
   */
  method SyncGroup(instances: seq<Instance>, effects: seq<TextEffect>, table: seq<EffectRatio>, f: real)
    returns (synced: seq<TextEffect>)
    requires Distinct(instances)
    requires |effects| == |instances| == |table|
    requires forall k :: 0 <= k < |instances| ==> instances[k].stroke == effects[k].stroke
    modifies instances
    ensures |synced| == |effects|
    ensures forall k :: 0 <= k < |instances| ==>
      instances[k].State() == SyncedState(old(instances[k].State()), Actual(table[k], f))
    ensures forall k :: 0 <= k < |synced| ==> synced[k] == SyncedEffect(effects[k], Actual(table[k], f))
    ensures forall k :: 0 <= k < |synced| ==> instances[k].stroke == synced[k].stroke
  {
    synced := effects;
    var index := 0;
    while index < |table|
      invariant 0 <= index <= |table| && |synced| == |effects|
      invariant forall k :: 0 <= k < index ==>
        instances[k].State() == SyncedState(old(instances[k].State()), Actual(table[k], f))
      invariant forall k :: index <= k < |instances| ==> instances[k].State() == old(instances[k].State())
      invariant forall k :: 0 <= k < index ==> synced[k] == SyncedEffect(effects[k], Actual(table[k], f))
      invariant forall k :: index <= k < |synced| ==> synced[k] == effects[k]
      invariant forall k :: 0 <= k < |synced| ==> instances[k].stroke == synced[k].stroke
    {
      var effect := SyncInstance(instances[index], synced[index], table[index], f);
      synced := synced[index := effect];
      index := index + 1;
    }
  }

  /**
    The first-sync pass over the ratio table: every entry's offset, stroke
    width and dash entries divided by the font size f.
   */
  method NormalizeRatios(table: seq<EffectRatio>, f: real) returns (r: seq<EffectRatio>)
    requires f != 0.0
    ensures r == ToRatios(table, f)
  {
    r := table;
    var j := 0;
    while j < |r|
      invariant 0 <= j <= |r| == |table|
      invariant forall k :: 0 <= k < j ==> r[k] == ToRatio(table[k], f)
      invariant forall k :: j <= k < |r| ==> r[k] == table[k]
    {
      var ratio := r[j];
      var dash := ratio.dashPatternRatios;
      if dash.Some? {
        dash := Some(DivideAll(dash.value, f));
      }
      r := r[j := EffectRatio(ratio.offsetXRatio / f, ratio.offsetYRatio / f, ratio.strokeWidthRatio / f, dash)];
      j := j + 1;
    }
  }

  /**
    The body of the sync loop for one index: the instance gets x and y, and
    its stroke (when it has a style) the width and dash pattern, of the
    ratio at font size f; the returned config gets the same.
   */
  method SyncInstance(text: Instance, effect: TextEffect, ratio: EffectRatio, f: real) returns (synced: TextEffect)
    requires text.stroke == effect.stroke
    modifies text
    ensures text.State() == SyncedState(old(text.State()), Actual(ratio, f))
    ensures synced == SyncedEffect(effect, Actual(ratio, f))
  {
    var actualX := ratio.offsetXRatio * f;
    var actualY := ratio.offsetYRatio * f;
    var actualStrokeWidth := ratio.strokeWidthRatio * f;
    text.x := actualX;
    text.y := actualY;
    synced := effect.(offset :=
      Some(Offset(Some(actualX), Some(actualY), if effect.offset.Some? then effect.offset.value.visible else Unset)));
    ghost var g := Actual(ratio, f);
    ghost var stroke := effect.stroke;
    if text.stroke.Some? && text.stroke.value.style.Some? {
      text.stroke := Some(WithStrokeWidth(text.stroke.value, actualStrokeWidth));
      synced := synced.(stroke := Some(WithStrokeWidth(synced.stroke.value, actualStrokeWidth)));
      assert text.stroke.value.style.value.strokeWidth.value == g.strokeWidth;
      if ratio.dashPatternRatios.Some? {
        var actualDashPattern := ScaleAll(ratio.dashPatternRatios.value, f);
        text.stroke := Some(WithDashPattern(text.stroke.value, actualDashPattern));
        synced := synced.(stroke := Some(WithDashPattern(synced.stroke.value, actualDashPattern)));
        assert g.dashPattern.value == actualDashPattern;
      }
    }
    assert text.stroke == synced.stroke == SyncedStroke(stroke, g);
    assert synced.offset.value.x.value == g.x && synced.offset.value.y.value == g.y;
  }

  /**
    Clearing with an absent list after a non-empty one leaves a group (now
    empty) and a non-empty ratio table beside an absent list: the next
    position sync would throw.
   */
  method ClearThenSyncThrows(effect: TextEffect) returns (data: EffectTextData)
    ensures !data.CanSync()
  {
    data := new EffectTextData();
    data.SetTextEffects(Some([effect]));
    data.SetTextEffects(None);
  }

  /**
    Two position syncs at the same font size leave the same state as one: the
    second leaves the ratio table, the effect configs and every instance as
    the first left them.
   */
  method SecondSyncChangesNothing(data: EffectTextData, fontSize: Option<real>)
    requires data.Valid() && data.CanSync()
    modifies data, data.Pool()
    ensures data.Valid() && data.group == old(data.group)
    ensures old(data.group.None? || data.ratios.None?) ==> unchanged(data) && unchanged(data.Pool())
    ensures old(data.group.Some? && data.ratios.Some?) ==>
      && data.ratiosInitialized
      && data.ratios == Some(if old(data.ratiosInitialized) then old(data.ratios.value)
                             else ToRatios(old(data.ratios.value), EffectiveFontSize(fontSize)))
      && (forall i :: 0 <= i < |data.Pool()| ==>
            data.Pool()[i].State() ==
              SyncedState(old(data.Pool()[i].State()), Actual(data.ratios.value[i], EffectiveFontSize(fontSize))))
      && (|data.Pool()| == 0 ==> data.textEffects == old(data.textEffects))
      && (|data.Pool()| > 0 ==>
            && data.textEffects.Some? && |data.textEffects.value| == |data.Pool()|
            && forall i :: 0 <= i < |data.Pool()| ==>
                 data.textEffects.value[i] ==
                   SyncedEffect(old(data.textEffects.value[i]), Actual(data.ratios.value[i], EffectiveFontSize(fontSize))))
  {
    ghost var effects0, pool := data.textEffects, data.Pool();
    ghost var states0 := seq(|pool|, i requires 0 <= i < |pool| reads pool => pool[i].State());
    data.UpdateEffectPositions(fontSize);
    ghost var effects, ratios := data.textEffects, data.ratios;
    ghost var states := seq(|pool|, i requires 0 <= i < |pool| reads pool => pool[i].State());
    data.UpdateEffectPositions(fontSize);
    if data.group.Some? && data.ratios.Some? {
      var f := EffectiveFontSize(fontSize);
      forall i | 0 <= i < |pool|
        ensures pool[i].State() == states[i]
      {
        SyncIsIdempotent(effects0.value[i], states0[i], Actual(ratios.value[i], f));
      }
      if |pool| > 0 {
        forall i | 0 <= i < |pool|
          ensures data.textEffects.value[i] == effects.value[i]
        {
          SyncIsIdempotent(effects0.value[i], states0[i], Actual(ratios.value[i], f));
        }
        assert data.textEffects.value == effects.value;
      }
    }
    assert data.ratios == ratios;
    assert data.textEffects == effects;
    assert forall i :: 0 <= i < |pool| ==> pool[i].State() == states[i];
  }
}
