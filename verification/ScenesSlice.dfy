/** The scene-state reducers of `src/redux/scenesSlice.ts`.

    Every reducer is a synchronous state transformer written against an
    Immer draft; here each one is a pure function from the old state (plus
    its payload) to the new state. Values the source obtains from code that
    is not part of this model (`nanoid()`, `initScene()`, `initModulator()`)
    are parameters. A reducer that indexes a modulator carries a
    precondition that the index addresses an existing modulator: outside
    that range the JavaScript either throws (reading `.lfo` or
    `.modulation` of `undefined`) or, for `resetModulator`, grows the array
    or adds a property, and neither path is modelled.
 */
module ScenesSlice {

  import opened Numeric
  import opened Sequences
  import opened SceneTypes

  /** Bounds `incrementPeriod` clamps an LFO period into. */
  const MinPeriod: real := 0.25
  const MaxPeriod: real := 16.0

  /** The property key JavaScript uses for `obj[undefined]`: reading
      `ids[index]` past either end yields `undefined`, and `delete
      byId[undefined]` deletes this key. */
  const UndefinedKey: SceneId := "undefined"

  // ---------------------------------------------------------------------
  // The state invariant

  /** `ids` and `byId` describe the same scenes, each id once. */
  predicate WellFormed(s: SceneState) {
    && NoDuplicates(s.ids)
    && Elems(s.ids) == s.byId.Keys
    && "" !in s.byId
  }

  /** A well-formed state whose selected id names an existing scene. */
  predicate Valid(s: SceneState) {
    WellFormed(s) && s.active in s.byId
  }

  // ---------------------------------------------------------------------
  // Addressing the active scene

  /** The guard of `modifyActiveScene`: `active` is a non-empty (truthy)
      string that is an own key of `byId`. The JavaScript guard reads
      `byId[active]`, which is also truthy for names inherited from
      `Object.prototype` (such as `"constructor"`); those count as absent
      here. */
  predicate HasActive(s: SceneState) {
    s.active != "" && s.active in s.byId
  }

  function ActiveScene(s: SceneState): Scene
    requires HasActive(s)
  {
    s.byId[s.active]
  }

  /** When there is an active scene, `index` addresses one of its
      modulators (otherwise `scene.modulators[index].lfo` would throw). */
  predicate ModulatorIndexOk(s: SceneState, index: int) {
    HasActive(s) ==> 0 <= index < |ActiveScene(s).modulators|
  }

  function ActiveModulator(s: SceneState, index: int): Modulator
    requires HasActive(s) && 0 <= index < |ActiveScene(s).modulators|
  {
    ActiveScene(s).modulators[index]
  }

  /** `r` differs from `s` at most in the scene stored under `s.active`. */
  predicate OnlyActiveChanged(s: SceneState, r: SceneState) {
    && r.ids == s.ids
    && r.active == s.active
    && r.auto == s.auto
    && r.byId.Keys == s.byId.Keys
    && forall id :: id in s.byId && id != s.active ==> r.byId[id] == s.byId[id]
  }

  /** Both states have an active scene, and they differ at most in the
      active scene's modulator at `index`; the modulator count is kept. */
  predicate OnlyModulatorChanged(s: SceneState, r: SceneState, index: int) {
    && HasActive(s)
    && HasActive(r)
    && OnlyActiveChanged(s, r)
    && ActiveScene(r) == ActiveScene(s).(modulators := ActiveScene(r).modulators)
    && |ActiveScene(r).modulators| == |ActiveScene(s).modulators|
    && forall j :: 0 <= j < |ActiveScene(s).modulators| && j != index ==>
         ActiveScene(r).modulators[j] == ActiveScene(s).modulators[j]
  }

  /** `modifyActiveScene`: apply `edit` to the active scene when there is
      one, and do nothing otherwise. */
  function ModifyActiveScene(s: SceneState, edit: Scene --> Scene): (r: SceneState)
    requires HasActive(s) ==> edit.requires(ActiveScene(s))
    ensures !HasActive(s) ==> r == s
    ensures HasActive(s) ==> HasActive(r) && OnlyActiveChanged(s, r)
    ensures HasActive(s) ==> ActiveScene(r) == edit(ActiveScene(s))
  {
    if HasActive(s) then s.(byId := s.byId[s.active := edit(s.byId[s.active])]) else s
  }

  /** `modifyActiveScene` with a callback that rewrites one modulator. */
  function ModifyActiveModulator(s: SceneState, index: int, edit: Modulator -> Modulator): (r: SceneState)
    requires ModulatorIndexOk(s, index)
    ensures !HasActive(s) ==> r == s
    ensures HasActive(s) ==> OnlyModulatorChanged(s, r, index)
    ensures HasActive(s) ==> ActiveModulator(r, index) == edit(ActiveModulator(s, index))
  {
    ModifyActiveScene(s, (sc: Scene) requires 0 <= index < |sc.modulators| =>
      sc.(modulators := sc.modulators[index := edit(sc.modulators[index])]))
  }

  // ---------------------------------------------------------------------
  // Initial state

  /** `initState`: one scene (`initScene()`) under the id `nanoid()`
      produced at load time, selected, with auto-scene off. */
  function InitState(initId: SceneId, initScene: Scene): (r: SceneState)
    ensures initId != "" ==> Valid(r) && HasActive(r)
    ensures r.ids == [initId] && r.active == initId
    ensures r.byId.Keys == {initId} && r.byId[initId] == initScene
    ensures !r.auto.enabled && r.auto.bombacity == 0.0 && r.auto.period == 1.0
  {
    SceneState([initId], map[initId := initScene], initId, AutoScene(false, 0.0, 1.0))
  }

  // ---------------------------------------------------------------------
  // Auto-scene settings

  function SetAutoSceneEnabled(s: SceneState, enabled: bool): (r: SceneState)
    ensures r.auto.enabled == enabled
    ensures r.auto.bombacity == s.auto.bombacity && r.auto.period == s.auto.period
    ensures r.ids == s.ids && r.byId == s.byId && r.active == s.active
  {
    s.(auto := s.auto.(enabled := enabled))
  }

  function SetAutoSceneBombacity(s: SceneState, bombacity: real): (r: SceneState)
    ensures r.auto.bombacity == bombacity
    ensures r.auto.enabled == s.auto.enabled && r.auto.period == s.auto.period
    ensures r.ids == s.ids && r.byId == s.byId && r.active == s.active
  {
    s.(auto := s.auto.(bombacity := bombacity))
  }

  function SetAutoScenePeriod(s: SceneState, period: real): (r: SceneState)
    ensures r.auto.period == period
    ensures r.auto.enabled == s.auto.enabled && r.auto.bombacity == s.auto.bombacity
    ensures r.ids == s.ids && r.byId == s.byId && r.active == s.active
  {
    s.(auto := s.auto.(period := period))
  }

  // ---------------------------------------------------------------------
  // Scene lifecycle

  /** `resetScenesState`: take the scenes and the selection from a loaded
      document, keeping the current auto-scene settings. */
  function ResetScenesState(s: SceneState, payload: SceneState): (r: SceneState)
    ensures r.ids == payload.ids && r.byId == payload.byId && r.active == payload.active
    ensures r.auto == s.auto
  {
    SceneState(payload.ids, payload.byId, payload.active, s.auto)
  }

  /** `addScene`: push the id at the end of `ids` and store the scene
      under it. The id is not checked for freshness. */
  function AddScene(s: SceneState, id: SceneId, scene: Scene): (r: SceneState)
    ensures |r.ids| == |s.ids| + 1 && r.ids[..|s.ids|] == s.ids && r.ids[|s.ids|] == id
    ensures r.byId.Keys == s.byId.Keys + {id} && r.byId[id] == scene
    ensures forall k :: k in s.byId && k != id ==> r.byId[k] == s.byId[k]
    ensures r.active == s.active && r.auto == s.auto
  {
    assert (s.ids + [id])[..|s.ids|] == s.ids;
    s.(ids := s.ids + [id], byId := s.byId[id := scene])
  }

  /** `removeScene`: read `ids[index]`, splice that position out of `ids`
      and delete the id read from `byId`. Nothing adjusts `active`. For an
      index outside `ids` the read yields `undefined`, so the deleted key is
      `UndefinedKey`, while `splice` still counts a negative index back from
      the end. */
  function RemoveScene(s: SceneState, index: int): (r: SceneState)
    ensures r.active == s.active && r.auto == s.auto
    ensures 0 <= index < |s.ids| ==>
      && |r.ids| == |s.ids| - 1
      && (forall j :: 0 <= j < index ==> r.ids[j] == s.ids[j])
      && (forall j :: index <= j < |r.ids| ==> r.ids[j] == s.ids[j + 1])
      && r.byId.Keys == s.byId.Keys - {s.ids[index]}
    ensures index >= |s.ids| ==> r.ids == s.ids && r.byId.Keys == s.byId.Keys - {UndefinedKey}
    ensures index < 0 ==> r.ids == Splice1(s.ids, index) && r.byId.Keys == s.byId.Keys - {UndefinedKey}
    ensures forall k :: k in r.byId ==> k in s.byId && r.byId[k] == s.byId[k]
  {
    var id := if 0 <= index < |s.ids| then s.ids[index] else UndefinedKey;
    s.(ids := Splice1(s.ids, index), byId := s.byId - {id})
  }

  /** `setActiveScene`: select the given id. The id is not checked. */
  function SetActiveScene(s: SceneState, id: SceneId): (r: SceneState)
    ensures r.active == id
    ensures r.ids == s.ids && r.byId == s.byId && r.auto == s.auto
  {
    s.(active := id)
  }

  /** `setActiveSceneIndex`: select the scene at a position of `ids`; an
      index outside `[0, |ids|)` is silently ignored. */
  function SetActiveSceneIndex(s: SceneState, index: int): (r: SceneState)
    ensures 0 <= index < |s.ids| ==> r.active == s.ids[index]
    ensures !(0 <= index < |s.ids|) ==> r == s
    ensures r.ids == s.ids && r.byId == s.byId && r.auto == s.auto
  {
    if index > -1 && |s.ids| > index then s.(active := s.ids[index]) else s
  }

  // ---------------------------------------------------------------------
  // Edits of the active scene

  function SetActiveSceneBombacity(s: SceneState, bombacity: real): (r: SceneState)
    ensures !HasActive(s) ==> r == s
    ensures HasActive(s) ==> OnlyActiveChanged(s, r) && HasActive(r)
    ensures HasActive(s) ==> ActiveScene(r) == ActiveScene(s).(bombacity := bombacity)
  {
    ModifyActiveScene(s, (sc: Scene) => sc.(bombacity := bombacity))
  }

  function SetActiveSceneName(s: SceneState, name: string): (r: SceneState)
    ensures !HasActive(s) ==> r == s
    ensures HasActive(s) ==> OnlyActiveChanged(s, r) && HasActive(r)
    ensures HasActive(s) ==> ActiveScene(r) == ActiveScene(s).(name := name)
  {
    ModifyActiveScene(s, (sc: Scene) => sc.(name := name))
  }

  function SetModulatorShape(s: SceneState, index: int, shape: LfoShape): (r: SceneState)
    requires ModulatorIndexOk(s, index)
    ensures !HasActive(s) ==> r == s
    ensures HasActive(s) ==> OnlyModulatorChanged(s, r, index)
    ensures HasActive(s) ==> ActiveModulator(r, index).modulation == ActiveModulator(s, index).modulation
    ensures HasActive(s) ==> ActiveModulator(r, index).lfo == ActiveModulator(s, index).lfo.(shape := shape)
  {
    ModifyActiveModulator(s, index, (m: Modulator) => m.(lfo := m.lfo.(shape := shape)))
  }

  /** `setPeriod` stores the new period without clamping it. */
  function SetPeriod(s: SceneState, index: int, newVal: real): (r: SceneState)
    requires ModulatorIndexOk(s, index)
    ensures !HasActive(s) ==> r == s
    ensures HasActive(s) ==> OnlyModulatorChanged(s, r, index)
    ensures HasActive(s) ==> ActiveModulator(r, index).modulation == ActiveModulator(s, index).modulation
    ensures HasActive(s) ==> ActiveModulator(r, index).lfo == ActiveModulator(s, index).lfo.(period := newVal)
  {
    ModifyActiveModulator(s, index, (m: Modulator) => m.(lfo := m.lfo.(period := newVal)))
  }

  /** `incrementPeriod`: add `amount` to the period and clamp the sum into
      `[MinPeriod, MaxPeriod]`, whatever the old period was. */
  function IncrementPeriod(s: SceneState, index: int, amount: real): (r: SceneState)
    requires ModulatorIndexOk(s, index)
    ensures !HasActive(s) ==> r == s
    ensures HasActive(s) ==> OnlyModulatorChanged(s, r, index)
    ensures HasActive(s) ==>
      var before := ActiveModulator(s, index);
      var after := ActiveModulator(r, index);
      && after.modulation == before.modulation
      && after.lfo == before.lfo.(period := after.lfo.period)
      && MinPeriod <= after.lfo.period <= MaxPeriod
      && (MinPeriod <= before.lfo.period + amount <= MaxPeriod ==> after.lfo.period == before.lfo.period + amount)
      && (before.lfo.period + amount < MinPeriod ==> after.lfo.period == MinPeriod)
      && (before.lfo.period + amount > MaxPeriod ==> after.lfo.period == MaxPeriod)
  {
    ModifyActiveModulator(s, index,
      (m: Modulator) => m.(lfo := m.lfo.(period := Clamp(m.lfo.period + amount, MinPeriod, MaxPeriod))))
  }

  /** The LFO after `incrementModulator`'s four clamped additions. */
  function IncrementLfo(lfo: Lfo, p: IncrementModulatorPayload): Lfo {
    lfo.(flip := ClampNormalized(lfo.flip + p.flip),
         phaseShift := ClampNormalized(lfo.phaseShift + p.phaseShift),
         skew := ClampNormalized(lfo.skew + p.skew),
         symmetricSkew := ClampNormalized(lfo.symmetricSkew + p.symmetricSkew))
  }

  /** `incrementModulator`: add to flip, phaseShift, skew and
      symmetricSkew, each clamped into `[0, 1]`. */
  function IncrementModulator(s: SceneState, p: IncrementModulatorPayload): (r: SceneState)
    requires ModulatorIndexOk(s, p.index)
    ensures !HasActive(s) ==> r == s
    ensures HasActive(s) ==> OnlyModulatorChanged(s, r, p.index)
    ensures HasActive(s) ==>
      var before := ActiveModulator(s, p.index);
      var after := ActiveModulator(r, p.index);
      && after.modulation == before.modulation
      && after.lfo.shape == before.lfo.shape
      && after.lfo.period == before.lfo.period
      && after.lfo.flip == ClampNormalized(before.lfo.flip + p.flip)
      && after.lfo.phaseShift == ClampNormalized(before.lfo.phaseShift + p.phaseShift)
      && after.lfo.skew == ClampNormalized(before.lfo.skew + p.skew)
      && after.lfo.symmetricSkew == ClampNormalized(before.lfo.symmetricSkew + p.symmetricSkew)
  {
    ModifyActiveModulator(s, p.index, (m: Modulator) => m.(lfo := IncrementLfo(m.lfo, p)))
  }

  /** `addModulator`: push `initModulator()` onto the active scene. */
  function AddModulator(s: SceneState, init: Modulator): (r: SceneState)
    ensures !HasActive(s) ==> r == s
    ensures HasActive(s) ==> OnlyActiveChanged(s, r) && HasActive(r)
    ensures HasActive(s) ==>
      var before := ActiveScene(s).modulators;
      var after := ActiveScene(r).modulators;
      && ActiveScene(r) == ActiveScene(s).(modulators := after)
      && |after| == |before| + 1 && after[..|before|] == before && after[|before|] == init
  {
    ModifyActiveScene(s, (sc: Scene) => sc.(modulators := sc.modulators + [init]))
  }

  /** `removeModulator`: `splice(index, 1)` on the active scene's
      modulators, with JavaScript's handling of out-of-range indices. */
  function RemoveModulator(s: SceneState, index: int): (r: SceneState)
    ensures !HasActive(s) ==> r == s
    ensures HasActive(s) ==> OnlyActiveChanged(s, r) && HasActive(r)
    ensures HasActive(s) ==>
      var before := ActiveScene(s).modulators;
      var after := ActiveScene(r).modulators;
      && ActiveScene(r) == ActiveScene(s).(modulators := after)
      && (index >= |before| ==> after == before)
      && (index < 0 ==> after == Splice1(before, index))
      && (0 <= index < |before| ==>
            && |after| == |before| - 1
            && (forall j :: 0 <= j < index ==> after[j] == before[j])
            && (forall j :: index <= j < |after| ==> after[j] == before[j + 1]))
  {
    ModifyActiveScene(s, (sc: Scene) => sc.(modulators := Splice1(sc.modulators, index)))
  }

  /** `resetModulator`: replace the modulator at `index` with
      `initModulator()`. */
  function ResetModulator(s: SceneState, index: int, init: Modulator): (r: SceneState)
    requires ModulatorIndexOk(s, index)
    ensures !HasActive(s) ==> r == s
    ensures HasActive(s) ==> OnlyModulatorChanged(s, r, index) && ActiveModulator(r, index) == init
  {
    ModifyActiveModulator(s, index, _ => init)
  }

  /** `setModulation`: set one routing depth of one modulator. */
  function SetModulation(s: SceneState, index: int, param: ParamKey, value: real): (r: SceneState)
    requires ModulatorIndexOk(s, index)
    ensures !HasActive(s) ==> r == s
    ensures HasActive(s) ==> OnlyModulatorChanged(s, r, index)
    ensures HasActive(s) ==>
      var before := ActiveModulator(s, index);
      var after := ActiveModulator(r, index);
      && after.lfo == before.lfo
      && after.modulation.Keys == before.modulation.Keys + {param}
      && after.modulation[param] == value
      && forall q :: q in before.modulation && q != param ==> after.modulation[q] == before.modulation[q]
  {
    ModifyActiveModulator(s, index, (m: Modulator) => m.(modulation := m.modulation[param := value]))
  }

  /** `setRandomizer`: set one randomizer option of the active scene. */
  function SetRandomizer(s: SceneState, key: string, value: real): (r: SceneState)
    ensures !HasActive(s) ==> r == s
    ensures HasActive(s) ==> OnlyActiveChanged(s, r) && HasActive(r)
    ensures HasActive(s) ==>
      var before := ActiveScene(s);
      var after := ActiveScene(r);
      && after == before.(randomizer := after.randomizer)
      && after.randomizer.Keys == before.randomizer.Keys + {key}
      && after.randomizer[key] == value
      && forall q :: q in before.randomizer && q != key ==> after.randomizer[q] == before.randomizer[q]
  {
    ModifyActiveScene(s, (sc: Scene) => sc.(randomizer := sc.randomizer[key := value]))
  }

  // ---------------------------------------------------------------------
  // Base parameters: one `modifyActiveScene` call per payload entry

  /** `setBaseParams`: for each entry of the partial parameter payload,
      store its value in the active scene's base parameters. The entries
      are visited in an unspecified order. */
  method SetBaseParams(s: SceneState, p: map<ParamKey, real>) returns (r: SceneState)
    ensures Valid(s) ==> Valid(r)
    ensures !HasActive(s) ==> r == s
    ensures HasActive(s) ==> OnlyActiveChanged(s, r) && HasActive(r)
    ensures HasActive(s) ==>
      var before := ActiveScene(s);
      var after := ActiveScene(r);
      && after == before.(baseParams := after.baseParams)
      && after.baseParams.Keys == before.baseParams.Keys + p.Keys
      && (forall k :: k in p ==> after.baseParams[k] == p[k])
      && (forall k :: k in before.baseParams && k !in p ==> after.baseParams[k] == before.baseParams[k])
  {
    r := s;
    var todo := p.Keys;
    while todo != {}
      invariant todo <= p.Keys
      invariant !HasActive(s) ==> r == s
      invariant HasActive(s) ==> OnlyActiveChanged(s, r) && HasActive(r)
      invariant HasActive(s) ==> ActiveScene(r) == ActiveScene(s).(baseParams := ActiveScene(r).baseParams)
      invariant HasActive(s) ==>
        ActiveScene(r).baseParams.Keys == ActiveScene(s).baseParams.Keys + (p.Keys - todo)
      invariant HasActive(s) ==>
        forall k :: k in p && k !in todo ==> ActiveScene(r).baseParams[k] == p[k]
      invariant HasActive(s) ==>
        forall k :: k in ActiveScene(s).baseParams && (k !in p || k in todo) ==>
          ActiveScene(r).baseParams[k] == ActiveScene(s).baseParams[k]
      decreases todo
    {
      var k :| k in todo;
      var v := p[k];
      r := ModifyActiveScene(r, (sc: Scene) => sc.(baseParams := sc.baseParams[k := v]));
      todo := todo - {k};
    }
  }

  /** `incrementBaseParams`: for each entry of the payload, add its value
      to the active scene's base parameter and clamp into `[0, 1]`. Every
      payload key must already be a base parameter of the active scene
      (otherwise JavaScript adds to `undefined`). */
  method IncrementBaseParams(s: SceneState, p: map<ParamKey, real>) returns (r: SceneState)
    requires HasActive(s) ==> p.Keys <= ActiveScene(s).baseParams.Keys
    ensures Valid(s) ==> Valid(r)
    ensures !HasActive(s) ==> r == s
    ensures HasActive(s) ==> OnlyActiveChanged(s, r) && HasActive(r)
    ensures HasActive(s) ==>
      var before := ActiveScene(s);
      var after := ActiveScene(r);
      && after == before.(baseParams := after.baseParams)
      && after.baseParams.Keys == before.baseParams.Keys
      && (forall k :: k in p ==> after.baseParams[k] == ClampNormalized(before.baseParams[k] + p[k]))
      && (forall k :: k in p ==> 0.0 <= after.baseParams[k] <= 1.0)
      && (forall k :: k in before.baseParams && k !in p ==> after.baseParams[k] == before.baseParams[k])
  {
    r := s;
    var todo := p.Keys;
    while todo != {}
      invariant todo <= p.Keys
      invariant !HasActive(s) ==> r == s
      invariant HasActive(s) ==> OnlyActiveChanged(s, r) && HasActive(r)
      invariant HasActive(s) ==> ActiveScene(r) == ActiveScene(s).(baseParams := ActiveScene(r).baseParams)
      invariant HasActive(s) ==> ActiveScene(r).baseParams.Keys == ActiveScene(s).baseParams.Keys
      invariant HasActive(s) ==>
        forall k :: k in p && k !in todo ==>
          ActiveScene(r).baseParams[k] == ClampNormalized(ActiveScene(s).baseParams[k] + p[k])
      invariant HasActive(s) ==>
        forall k :: k in ActiveScene(s).baseParams && (k !in p || k in todo) ==>
          ActiveScene(r).baseParams[k] == ActiveScene(s).baseParams[k]
      decreases todo
    {
      var k :| k in todo;
      var v := p[k];
      r := ModifyActiveScene(r, (sc: Scene) requires k in sc.baseParams =>
        sc.(baseParams := sc.baseParams[k := ClampNormalized(sc.baseParams[k] + v)]));
      todo := todo - {k};
    }
  }
}
