# EffectText effect-instance engine, in Dafny

This project models the engine behind `EffectText`, a text node that draws
stacked copies of itself ("effect instances") to produce outline, shadow and
emboss effects. The model covers five parts:

- **Configuration helpers.** They read an effect's offset, stroke width and
  dash pattern with the engine's defaults. An absent or hidden part counts as
  zero, and a visibility flag hides only when it is `false` or `0`.
- **Reconciliation.** Assigning `textEffects` records each effect's absolute
  geometry in a ratio table and lines the list up with the existing instances
  by index. An instance at the same index is reused, a new one is created
  where none exists, and surplus instances are hidden with `visible = 0`.
- **Position sync.** On the first sync after an assignment, the ratio table
  is divided by the current font size, once. On every sync, the table is
  multiplied by the current font size, and x, y, stroke width and dash
  pattern are written into both the instance and the effect config.
- **Render spread.** The text's bounds are padded by the largest demand of
  any visible effect on each side, not by their sum.
- **`normalizeTextEffects`.** It rescales an effect list from one font size
  to another.

Modules:

- `EffectConfig` (`effect_config.dfy`): the config datatypes and helpers.
- `Normalize` (`normalize.dfy`): `normalizeTextEffects`.
- `SyncKeys` (`sync_keys.dfy`): `omitKeys` and the deny-list of keys.
- `RenderSpread` (`render_spread.dfy`): `__updateRenderSpread`.
- `EffectTextEngine` (`effect_text_engine.dfy`): the `Instance` class (a
  render node) and the `EffectTextData` class, which holds the list, the
  group, the ratio table and the once-only normalisation flag.

JavaScript numbers are reals, and `undefined`/`null` is `None`.

Behaviour of the code that the model follows:

- **A shrunk group drops its surplus.** `updateOrCreateEffectTexts` builds the
  new group with `effects.map` and replaces the old one
  (`EffectText.ts:232`, `:257`). So after shrinking, the group is exactly as
  long as the new list. The source's own comments speak of reusing existing
  instances (`:241`) and hiding the surplus (`:252`), but the hidden surplus
  instances leave the group, so they are not reused by a later, longer list;
  the model follows the code. In the same way, a clear empties the group, so
  a later non-empty assignment creates fresh instances rather than reusing
  the hidden ones.
- **A sync after clearing with `undefined` throws.** `clearAllEffects` does
  not reset the ratio table (`:260-265`). Setting `textEffects` to
  `undefined` after a non-empty list leaves an empty group beside a
  non-empty table. The next `updateEffectPositions` then reads
  `_textEffects[index]` on `undefined` (`:291`) and throws. The model makes
  this state an explicit precondition, `CanSync()`, of `UpdateEffectPositions`.
  `ClearThenSyncThrows` proves that two assignments reach that state.
- **Instance and config strokes stay equal.** The sync writes the config's
  stroke whenever the instance's stroke has a style (`:309-319`). This is safe
  because each instance is given its effect's stroke and the sync writes both
  alike. `EffectTextData.Valid()` states this as an invariant.
- **`SecondSyncChangesNothing`** runs the sync twice at the same font size.
  Its contract states that the resulting table, configs and instances are
  exactly those one sync produces.

## Model

| member | source | states |
|---|---|---|
| `EffectConfig.IsVisible` | packages/effect-text/src/lib/EffectText.ts:95-97 | hidden exactly when the flag is `false` or `0`; an absent flag means visible |
| `EffectConfig.OffsetValue` | packages/effect-text/src/lib/EffectText.ts:99-104 | (0, 0) for an absent or hidden offset; otherwise its coordinates, with 0 for a missing one |
| `EffectConfig.StrokeWidth` | packages/effect-text/src/lib/EffectText.ts:106-111 | 0 for an absent or hidden stroke; non-zero exactly when a visible stroke has a style with a non-zero width, and then that width |
| `EffectConfig.DashPattern` | packages/effect-text/src/lib/EffectText.ts:113-119 | present exactly when a visible stroke's style has a non-empty array pattern, and then that array; absent for a hidden stroke, a non-array or an empty array |
| `EffectConfig.DirectionSpread` | packages/effect-text/src/lib/EffectText.ts:121-131 | offset < 0 gives (0, \|offset\|+s); offset > 0 gives (offset+s, 0); offset = 0 gives (s, s) |
| `EffectConfig.DirectionSpreadMirror` | packages/effect-text/src/lib/EffectText.ts:121-131 | negating the offset swaps the positive and negative padding |
| `EffectConfig.DirectionSpreadExtent` | packages/effect-text/src/lib/EffectText.ts:121-131 | for s ≥ 0 the larger side is \|offset\|+s, and the other side is 0 whenever there is an offset |
| `SyncKeys.OmitKeys` | packages/effect-text/src/lib/EffectText.ts:133-141 | the result holds exactly the input's keys that are not in the deny-list, each with its input value |
| `Normalize.NormalizeTextEffects` | packages/effect-text/src/lib/EffectText.ts:152-189 | returns the input itself for an absent or empty list or equal font sizes; otherwise a list of the same length whose i-th effect is the input's rescaled by target/source |
| `Normalize.RescaleScalesGeometry` | packages/effect-text/src/lib/EffectText.ts:165-188 | after rescaling by k, the engine reads k times the offset, k times the stroke width and k times every dash entry; visibility and fill are unchanged |
| `Normalize.RescaleCompose` | packages/effect-text/src/lib/EffectText.ts:165-188 | rescaling by k and then by k' equals rescaling once by k·k' |
| `Normalize.NormalizeChain` | packages/effect-text/src/lib/EffectText.ts:152-189 | for distinct non-zero sizes, normalising s→t and then t→u equals normalising s→u |
| `Normalize.NormalizeRoundTrip` | packages/effect-text/src/lib/EffectText.ts:152-189 | normalising s→t and back t→s gives a list of the same length with the same offset, stroke width and dash pattern per effect |
| `RenderSpread.Absorb` | packages/effect-text/src/lib/EffectText.ts:411-426 | one step of the loop: no side shrinks, a visible effect's demand is met on every side, each side is either its old value or that demand, and a hidden effect leaves every side as it was |
| `RenderSpread.UpdateRenderSpread` | packages/effect-text/src/lib/EffectText.ts:402-429 | an absent list gives the base spread; otherwise the effects are absorbed in list order starting from the base |
| `RenderSpread.SpreadIsMaximum` | packages/effect-text/src/lib/EffectText.ts:402-429 | each side is at least the base and at least every visible effect's demand, and equals one of them: the maximum, not the sum |
| `RenderSpread.SpreadIgnoresHidden` | packages/effect-text/src/lib/EffectText.ts:411-413 | the spread of a list equals the spread of its visible effects alone |
| `RenderSpread.SpreadTakesMaximumNotSum` | packages/effect-text/src/lib/EffectText.ts:422-425 | right-side demands of 10 and 4 give a right spread of 10 |
| `EffectTextEngine.EffectiveFontSize` | packages/effect-text/src/lib/EffectText.ts:274 | the node's font size when it is present and non-zero, otherwise 12; never 0 |
| `EffectTextEngine.FirstSyncRestoresAbsolute` | packages/effect-text/src/lib/EffectText.ts:277-298 | after dividing by f and multiplying by the same f, the geometry equals the recorded absolute values |
| `EffectTextEngine.ActualIsProportional` | packages/effect-text/src/lib/EffectText.ts:296-298 | at k times the font size, x, y, stroke width and every dash entry are k times as large |
| `EffectTextEngine.SyncIsIdempotent` | packages/effect-text/src/lib/EffectText.ts:300-318 | writing the same geometry twice into a config or an instance changes nothing the second time |
| `EffectTextEngine.SyncedConfigRecordsSameValues` | packages/effect-text/src/lib/EffectText.ts:213-227 | the config written back by the first sync records the same absolute values as the config it replaced |
| `EffectTextEngine.Instance.constructor` | packages/effect-text/src/lib/EffectText.ts:247 | a new instance carries exactly the given properties |
| `EffectTextEngine.Instance.Set` | packages/effect-text/src/lib/EffectText.ts:244 | every given property of the instance is overwritten |
| `EffectTextEngine.EffectTextData.constructor` | packages/effect-text/src/lib/EffectText.ts:193-197 | no list, no group, no table, not normalised; the invariant holds |
| `EffectTextEngine.EffectTextData.SetTextEffects` | packages/effect-text/src/lib/EffectText.ts:199-211 | non-empty list: one table entry per effect with its absolute values, flag false, group exactly as long as the list, old instances kept by index, new ones fresh, surplus hidden with `visible = 0`; empty or absent list: table and flag unchanged, a non-empty group hidden and emptied, no group left as it was; the list is stored either way; the invariant is kept |
| `EffectTextEngine.EffectTextData.RecordAbsoluteValues` | packages/effect-text/src/lib/EffectText.ts:213-227 | the table has one entry per effect holding its offset, stroke width and dash pattern as read by the helpers; the flag is false |
| `EffectTextEngine.EffectTextData.UpdateOrCreateEffectTexts` | packages/effect-text/src/lib/EffectText.ts:229-258 | the group has one distinct instance per effect, the same object as the old one at that index where one existed and a fresh one otherwise, each with its effect's properties; old instances past the new length get `visible = 0` and nothing else |
| `EffectTextEngine.EffectTextData.ClearAllEffects` | packages/effect-text/src/lib/EffectText.ts:260-265 | a non-empty group has every instance hidden and becomes empty; otherwise the group is unchanged |
| `EffectTextEngine.EffectTextData.UpdateEffectPositions` | packages/effect-text/src/lib/EffectText.ts:267-324 | no group or no table: nothing changes; otherwise the table is divided by the font size only if not yet normalised, the flag becomes true, and each instance and its config get the table's geometry at the current font size |
| `EffectTextEngine.NormalizeRatios` | packages/effect-text/src/lib/EffectText.ts:277-287 | the first-sync pass: every table entry's offset, stroke width and dash entries divided by the font size, one entry per input entry |
| `EffectTextEngine.SyncGroup` | packages/effect-text/src/lib/EffectText.ts:289-323 | over an index-aligned group, list and table: every instance and every config get the geometry of the ratio at the same index at the current font size, and their strokes stay equal |
| `EffectTextEngine.HideFrom` | packages/effect-text/src/lib/EffectText.ts:253-255 | every instance from the given index on gets `visible = 0` and nothing else; the instances before it are unchanged |
| `EffectTextEngine.SyncInstance` | packages/effect-text/src/lib/EffectText.ts:295-322 | for one index: the instance and the returned config get x, y and, when the stroke has a style, its width and dash pattern, from ratio × font size |
| `EffectTextEngine.SecondSyncChangesNothing` | packages/effect-text/src/lib/EffectText.ts:267-324 | two syncs at the same font size leave the same state as one: the group is unchanged, the table is divided by the font size only if it was not yet normalised, every instance and every config hold the table's geometry at that font size exactly once, and without a group or table nothing changes |
| `EffectTextEngine.ClearThenSyncThrows` | packages/effect-text/src/lib/EffectText.ts:260-265 | a non-empty list followed by `undefined` leaves a state in which the sync would throw (the read at line 291) |

## Left out

- `display-module/data/TextData.ts` (`setBoxStyle`, `setFontWeight`) is host glue around a background rectangle and font-weight input tracking. It is not part of this model.
- `partner/index.ts` and `partner/paint/index.ts` only install paint and text modules whose code is not part of this model.
- Property propagation in `__updateChange` (`:362-375`) is left out. It copies the text's serialised style minus `IGNORE_SYNC_KEYS` onto each instance, re-parents it and recomputes its layout; those properties belong to the host. Only `omitKeys` and the deny-list are modelled.
- `__draw`, `_updateEffectText`, `__updateBoxBounds`, `destroy`, `toJSON` and debug logging are host rendering and lifecycle, and are not modelled. The matrix updates at `:321-322` are no-ops in the model.
- `FourNumberHelper.get` is not modelled. The base spread is taken as four sides already.
- The owning text's own `__effectTextGroup` is not a separate field. It is assigned together with the data holder's group (`:257`, `:263`) and is always equal to it.
- Aliasing is not modelled. Effect configs are values held by the data holder, so writes that the source makes into objects the caller also holds are not visible to the caller. The instance's stroke and its config's stroke are two copies kept equal.
- `normalizeTextEffects` uses a JSON deep copy. The model has value semantics instead; what JSON does to `NaN`, `Infinity` or `undefined` is not modelled.
- Floating point is not modelled. Numbers are reals, so dividing and then multiplying is exact, and `NaN` (which the zero defaults would turn into 0) does not occur.
- `Normalize.NormalizeTextEffects`: requires a non-zero source font size when it actually rescales, because JavaScript would scale by `Infinity` there.
- Visibility flags other than booleans, numbers and absent (for example strings) are not modelled.
- Paints (fills and stroke colours) are opaque strings.
