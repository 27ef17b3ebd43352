# Scene-state reducers of Captivate2, in Dafny

This project models the scene-state slice of Captivate2, a generative
audio-visual instrument. The slice is `src/redux/scenesSlice.ts`. Its state holds:

- the ordered list of scene ids (display order);
- the scenes by id, where each scene has a name, a bombacity, base parameters, a bank of LFO modulators and randomizer options;
- the id of the selected (active) scene;
- the auto-scene settings (enabled, bombacity, period).

Every reducer of the slice is modelled as a pure Dafny function from the old
state and the action payload to the new state. The two reducers that loop
over a payload's entries are modelled as methods with a loop. Immer's in-place
mutation is read as "return the updated value".

Modules:

- `Numeric`: `Clamp` and `ClampNormalized`, over `real`.
- `Sequences`: duplicate-freedom and JavaScript's `array.splice(start, 1)`, including how it treats negative and too-large starts.
- `SceneTypes`: the records `SceneState`, `AutoScene`, `Scene`, `Modulator` and `Lfo`. They keep only the fields the reducers touch.
- `ScenesSlice`: the reducers and the `modifyActiveScene` guard. It also holds the state invariant `Valid`: `ids` has no duplicates, the set of `ids` equals the keys of `byId`, no id is empty, and `active` is a key of `byId`.
- `ScenesProperties`: which reducers keep `Valid`, round trips (add then remove), no-op payloads, and last-write-wins for setters.

The slice itself does not keep `active` valid when the selected scene is
removed. The scene-selection view prevents that case: it shows no delete button on the
selected scene (src/components/SceneSelection.tsx:42-49).
`RemoveScenePreservesValid` proves that the invariant survives `removeScene`
exactly when the removed id is not the active one.

Assumptions:

- `clamp(x, lo, hi)` is `min(max(x, lo), hi)`.
- `clampNormalized(x)` is `clamp(x, 0, 1)`.

Both helpers live in `src/util/helpers`, which is not part of this model.

Values from code outside the model are parameters: the ids (`nanoid()`),
`initScene()` and `initModulator()`.

## Model

| member | source | states |
|---|---|---|
| Numeric.Clamp | src/redux/scenesSlice.ts:115 | the result lies in `[lo, hi]`; it is `x` inside the interval, and the nearer bound outside it |
| Numeric.ClampNormalized | src/redux/scenesSlice.ts:121-124 | the result lies in `[0, 1]`; it is `x` when `x` is already there, 0 below and 1 above |
| Sequences.SpliceStart | src/redux/scenesSlice.ts:82 | the position `splice` starts at: a start inside the array is kept, a start past the end becomes the end, a negative start counts back from the end and stops at 0 |
| Sequences.Splice1 | src/redux/scenesSlice.ts:82 | `splice(start, 1)` removes the element at the actual start position and shifts the later ones down by one; a start at or past the end removes nothing |
| Sequences.SplicePermutation | src/redux/scenesSlice.ts:82 | splicing out position k keeps every other element: the multiset of the result plus the removed element is the multiset of the input |
| Sequences.SpliceElems | src/redux/scenesSlice.ts:80-84 | on a duplicate-free id list, splicing out position k removes exactly the id `ids[k]` and leaves the list duplicate-free |
| Sequences.AppendNoDuplicates | src/redux/scenesSlice.ts:77 | pushing an id keeps the list duplicate-free if and only if the id was not in it |
| Sequences.SpliceUndoesPush | src/redux/scenesSlice.ts:77-82 | `splice` at the last position, or at -1, undoes a `push` |
| ScenesSlice.ModifyActiveScene | src/redux/scenesSlice.ts:52-56 | with no truthy active id that is a key of `byId`, the state is returned unchanged; otherwise only the active scene is replaced by the callback's result, and `ids`, `active`, `auto` and all other scenes stay as they were |
| ScenesSlice.ModifyActiveModulator | src/redux/scenesSlice.ts:52-56 | a callback on one modulator of the active scene changes only that modulator; the modulator count and every other modulator are unchanged |
| ScenesSlice.InitState | src/redux/scenesSlice.ts:25-36 | the initial state has exactly one scene, under the initial id, and that scene is selected; auto-scene is disabled with bombacity 0 and period 1; for a non-empty id the state is valid |
| ScenesSlice.SetAutoSceneEnabled | src/redux/scenesSlice.ts:62-64 | only `auto.enabled` changes |
| ScenesSlice.SetAutoSceneBombacity | src/redux/scenesSlice.ts:65-67 | only `auto.bombacity` changes |
| ScenesSlice.SetAutoScenePeriod | src/redux/scenesSlice.ts:68-70 | only `auto.period` changes |
| ScenesSlice.ResetScenesState | src/redux/scenesSlice.ts:71-75 | `ids`, `byId` and `active` come from the payload; the current auto-scene settings are kept |
| ScenesSlice.AddScene | src/redux/scenesSlice.ts:76-79 | the id is appended after the old ids, which keep their order; `byId` gains the id with the given scene; every other scene, `active` and `auto` are unchanged |
| ScenesSlice.RemoveScene | src/redux/scenesSlice.ts:80-84 | for a valid index, `ids` loses that position while the others keep their relative order, and `byId` loses exactly that id; for an index outside the list, the deleted key is `"undefined"`; `active` and `auto` never change, and every remaining scene is unchanged |
| ScenesSlice.SetActiveScene | src/redux/scenesSlice.ts:85-87 | `active` becomes the given id, with no check; nothing else changes |
| ScenesSlice.SetActiveSceneIndex | src/redux/scenesSlice.ts:88-92 | an index from 0 up to, but excluding, the length of `ids` selects `ids[index]`; any other index leaves the whole state unchanged, with no error |
| ScenesSlice.SetActiveSceneBombacity | src/redux/scenesSlice.ts:93-97 | with an active scene, only that scene's bombacity changes; with none, the state is unchanged |
| ScenesSlice.SetActiveSceneName | src/redux/scenesSlice.ts:98-102 | with an active scene, only that scene's name changes; with none, the state is unchanged |
| ScenesSlice.SetModulatorShape | src/redux/scenesSlice.ts:103-107 | only the shape of the LFO of modulator `index` of the active scene changes |
| ScenesSlice.SetPeriod | src/redux/scenesSlice.ts:108-112 | only the period of modulator `index` changes, and it is stored unclamped |
| ScenesSlice.IncrementPeriod | src/redux/scenesSlice.ts:113-117 | whatever the prior period and amount, the new period lies in `[0.25, 16]`; it equals old + amount when that sum is in range and the bound it crossed otherwise; other LFO fields, the routing table and other modulators are unchanged |
| ScenesSlice.IncrementModulator | src/redux/scenesSlice.ts:118-126 | `flip`, `phaseShift`, `skew` and `symmetricSkew` of modulator `index` each end at `clampNormalized(old + delta)`, so in `[0, 1]`: old + delta when that sum is in range, 0 below it and 1 above it; shape, period, routing table and other modulators are unchanged |
| ScenesSlice.AddModulator | src/redux/scenesSlice.ts:127-131 | the active scene's modulators gain the initial modulator at the end, and the old modulators keep their order; nothing else changes |
| ScenesSlice.RemoveModulator | src/redux/scenesSlice.ts:132-136 | for a valid index, that modulator is removed and the others keep their order; an index past the end removes nothing; a negative index removes the modulator counted back from the end (`-1` is the last); nothing outside the active scene's modulators changes |
| ScenesSlice.ResetModulator | src/redux/scenesSlice.ts:137-141 | modulator `index` becomes the initial modulator; the other modulators are unchanged |
| ScenesSlice.SetModulation | src/redux/scenesSlice.ts:142-147 | one routing depth of modulator `index` is set, and its other depths and its LFO are unchanged |
| ScenesSlice.SetRandomizer | src/redux/scenesSlice.ts:162-166 | one randomizer option of the active scene is set, and its other options and other fields are unchanged |
| ScenesSlice.SetBaseParams | src/redux/scenesSlice.ts:148-154 | every payload key ends equal to its payload value; every base parameter not in the payload is unchanged; nothing outside the active scene's base parameters changes, so a valid state stays valid |
| ScenesSlice.IncrementBaseParams | src/redux/scenesSlice.ts:155-161 | every payload key ends at `clampNormalized(old + delta)`, so it lies in `[0, 1]`; keys not in the payload are unchanged; the key set is kept, and a valid state stays valid |
| ScenesProperties.ValidHasActive | src/redux/scenesSlice.ts:53 | in a valid state the guard of `modifyActiveScene` passes |
| ScenesProperties.ActiveEditPreservesValid | src/redux/scenesSlice.ts:52-56 | an edit confined to the active scene keeps the invariant |
| ScenesProperties.EditsPreserveValid | src/redux/scenesSlice.ts:62-166 | from any valid state, including one whose active scene has no modulators, every active-scene reducer function keeps the invariant for every payload the model admits: bombacity, name, add, remove and randomizer for any payload; shape, period set and increment, modulator increment, reset and routing for any modulator index in range; every auto-scene setter also keeps it, and the two base-parameter methods state it in their own contracts |
| ScenesProperties.IncrementModulatorInUnitRange | src/redux/scenesSlice.ts:118-126 | after `incrementModulator`, `flip`, `phaseShift`, `skew` and `symmetricSkew` each lie in `[0, 1]`, and each is exactly old + delta when that sum is already in range |
| ScenesProperties.AddScenePreservesValid | src/redux/scenesSlice.ts:76-79 | `addScene` keeps the invariant if and only if the id is non-empty and not already a scene |
| ScenesProperties.RemoveScenePreservesValid | src/redux/scenesSlice.ts:80-84 | for a valid index, `removeScene` keeps `ids` and `byId` in step; `active` still names a scene if and only if the removed scene was not the selected one, which is the scene-selection view's rule |
| ScenesProperties.RemoveSceneBeyondEnd | src/redux/scenesSlice.ts:80-84 | an index past the end changes nothing, provided no scene is stored under `"undefined"` |
| ScenesProperties.RemoveSceneNegativeIndex | src/redux/scenesSlice.ts:80-84 | a negative index splices an id out of `ids` but leaves its scene in `byId`, so `ids` and `byId` fall out of step |
| ScenesProperties.AddThenRemoveScene | src/redux/scenesSlice.ts:76-84 | removing a freshly added scene at its position restores the state exactly |
| ScenesProperties.SetActiveScenePreservesValid | src/redux/scenesSlice.ts:85-87 | `setActiveScene` keeps the invariant if and only if the id names an existing scene |
| ScenesProperties.SetActiveSceneIndexPreservesValid | src/redux/scenesSlice.ts:88-92 | `setActiveSceneIndex` keeps the invariant for every index, in range or not |
| ScenesProperties.EverySceneSelectableByIndex | src/redux/scenesSlice.ts:88-92 | every scene of a well-formed state is selected by `setActiveSceneIndex` at its position in `ids` |
| ScenesProperties.ResetScenesStateValid | src/redux/scenesSlice.ts:71-75 | the reset state is valid if and only if the loaded document is valid |
| ScenesProperties.AddThenRemoveModulator | src/redux/scenesSlice.ts:127-136 | `removeModulator(-1)`, or removal at the old count, undoes `addModulator` |
| ScenesProperties.IncrementModulatorByZero | src/redux/scenesSlice.ts:118-126 | a zero increment is a no-op when the four shape controls already lie in `[0, 1]` |
| ScenesProperties.IncrementPeriodByZero | src/redux/scenesSlice.ts:113-117 | a zero increment is a no-op when the period already lies in `[0.25, 16]` |
| ScenesProperties.SetThenIncrementPeriodInRange | src/redux/scenesSlice.ts:108-117 | an unclamped `setPeriod` followed by `incrementPeriod` always ends within the period bounds |
| ScenesProperties.AutoSettersLastWriteWins | src/redux/scenesSlice.ts:62-70 | setting an auto-scene field twice is the same as setting it once to the last value |
| ScenesProperties.SceneSettersLastWriteWins | src/redux/scenesSlice.ts:93-102 | the same holds for the active scene's bombacity and name |
| ScenesProperties.SetPeriodLastWriteWins | src/redux/scenesSlice.ts:108-112 | the same holds for a modulator's period |
| Numeric.ClampIdempotent | src/redux/scenesSlice.ts:115 | clamping twice is clamping once |
| Numeric.ClampMonotone | src/redux/scenesSlice.ts:115 | clamping never reverses the order of two inputs |

## Left out

- ID generation with `nanoid` (src/redux/scenesSlice.ts:7, 23) is nondeterministic, so ids are parameters. The bodies of `initScene()` and `initModulator()` live in `engine/scene_t` and `engine/modulationEngine`, which are not part of this model; their results are parameters too.
- `src/util/helpers` is not part of this model. `Clamp` and `ClampNormalized` rest on the stated min/max assumption.
- ModifyActiveScene: an `active` id counts as present only when it is an own key of `byId`. The source's guard reads `byId[active]` on a plain object, so it also passes for names inherited from `Object.prototype` (`"constructor"`, `"toString"`, ...); the callback then runs on that inherited value and usually throws. Such an `active` can only come from `setActiveScene` or `resetScenesState`, never from a generated id, and a valid state cannot hold one. For the same reason, `AddScene` with the id `"__proto__"` (which in JavaScript replaces the object's prototype rather than adding a key) is modelled as an ordinary key.
- Numbers are `real`: floating-point rounding, NaN and infinities are not modelled.
- Action payloads that the source types as `number` but uses as an index are modelled as `int`. A fractional JavaScript index is not modelled.
- `SetModulatorShape`, `SetPeriod`, `IncrementPeriod`, `IncrementModulator` and `SetModulation` require a modulator index in range when there is an active scene. For any other index, JavaScript throws a `TypeError` when it reads `.lfo` or `.modulation` of `undefined`, and that path is not modelled.
- ResetModulator: requires an index in range. JavaScript would instead append the modulator at an index equal to the length, leave holes (a sparse array) at a larger index, or create a property named after a negative index; none of these paths is modelled.
- IncrementBaseParams: requires every payload key to be a base parameter of the active scene. For any other key, JavaScript adds to `undefined` and stores the result of clamping `NaN`.
- `Object.entries` order in `setBaseParams` and `incrementBaseParams` is left unspecified: the methods visit keys in an arbitrary order. Each key is written once, so the result does not depend on the order.
- `setActiveScene` performs no check, so the model does not reject an unknown id. An error for an unknown scene id is not what the code does. `SetActiveScenePreservesValid` states when the invariant survives instead.
- `removeScene` neither rejects an out-of-range index nor reselects a scene when the active one is removed. The model follows the code and makes "the removed scene is not the active one" the hypothesis of `RemoveScenePreservesValid`. That hypothesis is the rule the scene-selection view enforces.
- Redux Toolkit plumbing is not modelled: `createSlice`, action creators and the store.
- React rendering and dispatch are not modelled: src/components/SceneSelection.tsx, and the dead component src/components/old/ModulationMatrix_old.tsx, whose `setModulation` payload no longer matches the reducer.
- The Electron file dialogs and file I/O of electron/saveload.ts are not modelled.
- tests/testValidation.ts drives a schema validator that is not part of this model, and it makes no assertions.
- Several parts of the engine are not part of this model: LFO waveform evaluation, modulation composition, the randomizer and any auto-scene timer. The slice only stores the auto-scene settings.
