/** Properties of the scene reducers that relate several calls or that
    concern the state invariant `Valid`: which reducers keep it, which
    reducers undo each other, and which payloads leave the state as it was.
 */
module ScenesProperties {

  import opened Numeric
  import opened Sequences
  import opened SceneTypes
  import opened ScenesSlice

  // ---------------------------------------------------------------------
  // The invariant and the active-scene guard

  /** In a valid state the guard of `modifyActiveScene` always passes, so
      no active-scene edit is silently dropped. */
  lemma ValidHasActive(s: SceneState)
    requires Valid(s)
    ensures HasActive(s)
  {
  }

  /** Any edit confined to the active scene keeps the invariant. */
  lemma ActiveEditPreservesValid(s: SceneState, r: SceneState)
    requires Valid(s)
    requires OnlyActiveChanged(s, r)
    ensures Valid(r)
  {
  }

  /** Every reducer function that goes through `modifyActiveScene`, and
      every auto-scene setter, keeps the invariant. (The two base-parameter
      methods state the same in their own contracts.) */
  lemma EditsPreserveValid(s: SceneState)
    requires Valid(s)
    ensures forall b :: Valid(SetActiveSceneBombacity(s, b))
    ensures forall name :: Valid(SetActiveSceneName(s, name))
    ensures forall i, shape | ModulatorIndexOk(s, i) :: Valid(SetModulatorShape(s, i, shape))
    ensures forall i, v | ModulatorIndexOk(s, i) :: Valid(SetPeriod(s, i, v))
    ensures forall i, amount | ModulatorIndexOk(s, i) :: Valid(IncrementPeriod(s, i, amount))
    ensures forall p: IncrementModulatorPayload | ModulatorIndexOk(s, p.index) :: Valid(IncrementModulator(s, p))
    ensures forall init :: Valid(AddModulator(s, init))
    ensures forall k :: Valid(RemoveModulator(s, k))
    ensures forall i, init | ModulatorIndexOk(s, i) :: Valid(ResetModulator(s, i, init))
    ensures forall i, q, v | ModulatorIndexOk(s, i) :: Valid(SetModulation(s, i, q, v))
    ensures forall key, v :: Valid(SetRandomizer(s, key, v))
    ensures forall b :: Valid(SetAutoSceneEnabled(s, b))
    ensures forall v :: Valid(SetAutoSceneBombacity(s, v))
    ensures forall v :: Valid(SetAutoScenePeriod(s, v))
  {
  }

  /** After `incrementModulator` the four shape controls lie in `[0, 1]`,
      and each is exactly old + delta when that sum is already in range. */
  lemma IncrementModulatorInUnitRange(s: SceneState, p: IncrementModulatorPayload)
    requires HasActive(s) && 0 <= p.index < |ActiveScene(s).modulators|
    ensures var before := ActiveModulator(s, p.index);
      var r := IncrementModulator(s, p);
      var after := ActiveModulator(r, p.index);
      && 0.0 <= after.lfo.flip <= 1.0
      && 0.0 <= after.lfo.phaseShift <= 1.0
      && 0.0 <= after.lfo.skew <= 1.0
      && 0.0 <= after.lfo.symmetricSkew <= 1.0
      && (0.0 <= before.lfo.flip + p.flip <= 1.0 ==> after.lfo.flip == before.lfo.flip + p.flip)
      && (0.0 <= before.lfo.phaseShift + p.phaseShift <= 1.0 ==> after.lfo.phaseShift == before.lfo.phaseShift + p.phaseShift)
      && (0.0 <= before.lfo.skew + p.skew <= 1.0 ==> after.lfo.skew == before.lfo.skew + p.skew)
      && (0.0 <= before.lfo.symmetricSkew + p.symmetricSkew <= 1.0 ==> after.lfo.symmetricSkew == before.lfo.symmetricSkew + p.symmetricSkew)
  {
  }

  // ---------------------------------------------------------------------
  // Scene lifecycle and the invariant

  /** `addScene` keeps the invariant exactly when the id is a new,
      non-empty one. */
  lemma AddScenePreservesValid(s: SceneState, id: SceneId, scene: Scene)
    requires Valid(s)
    ensures Valid(AddScene(s, id, scene)) <==> id != "" && id !in s.byId
  {
  }

  /** `removeScene` at a valid position always keeps `ids` and `byId` in
      step, and keeps `active` pointing at a scene exactly when the removed
      scene is not the selected one. The scene-selection view never offers
      deletion of the selected scene, which is what keeps the state valid. */
  lemma RemoveScenePreservesValid(s: SceneState, index: int)
    requires Valid(s)
    requires 0 <= index < |s.ids|
    ensures WellFormed(RemoveScene(s, index))
    ensures Valid(RemoveScene(s, index)) <==> s.ids[index] != s.active
  {
  }

  /** `removeScene` with an index past the end changes nothing, as long as
      no scene is stored under the key `"undefined"`. */
  lemma RemoveSceneBeyondEnd(s: SceneState, index: int)
    requires index >= |s.ids|
    requires UndefinedKey !in s.byId
    ensures RemoveScene(s, index) == s
  {
  }

  /** `removeScene` with a negative index splices an id out of `ids`
      (counted back from the end) but deletes nothing from `byId`, so the
      two stop describing the same scenes. */
  lemma RemoveSceneNegativeIndex(s: SceneState, index: int)
    requires WellFormed(s)
    requires index < 0 && |s.ids| > 0
    requires UndefinedKey !in s.byId
    ensures var x := s.ids[SpliceStart(|s.ids|, index)];
      x in RemoveScene(s, index).byId && x !in RemoveScene(s, index).ids
    ensures !WellFormed(RemoveScene(s, index))
  {
  }

  /** Removing the scene just added, at its position, restores the
      state. (At -1 the id would be spliced out of `ids` but stay in
      `byId`; see `RemoveSceneNegativeIndex`.) */
  lemma AddThenRemoveScene(s: SceneState, id: SceneId, scene: Scene)
    requires id !in s.byId
    ensures RemoveScene(AddScene(s, id, scene), |s.ids|) == s
  {
  }

  /** `setActiveScene` performs no check of its own: the state stays valid
      exactly when the caller passes the id of an existing scene. */
  lemma SetActiveScenePreservesValid(s: SceneState, id: SceneId)
    requires WellFormed(s)
    ensures Valid(SetActiveScene(s, id)) <==> id in s.byId
  {
  }

  /** `setActiveSceneIndex` always keeps a valid state valid, in range or
      not. */
  lemma SetActiveSceneIndexPreservesValid(s: SceneState, index: int)
    requires Valid(s)
    ensures Valid(SetActiveSceneIndex(s, index))
  {
  }

  /** Every scene of a well-formed state can be selected by index, at its
      position in `ids`. */
  lemma EverySceneSelectableByIndex(s: SceneState, id: SceneId)
    requires WellFormed(s)
    requires id in s.byId
    ensures exists i :: 0 <= i < |s.ids| && s.ids[i] == id && SetActiveSceneIndex(s, i).active == id
  {
  }

  /** `resetScenesState` yields a valid state exactly when the loaded
      document is valid; its auto-scene settings are ignored. */
  lemma ResetScenesStateValid(s: SceneState, payload: SceneState)
    ensures Valid(ResetScenesState(s, payload)) <==> Valid(payload)
    ensures ResetScenesState(s, payload) == payload.(auto := s.auto)
  {
  }

  // ---------------------------------------------------------------------
  // Round trips and no-op payloads for modulator edits

  /** Splicing at -1 removes the modulator `addModulator` just pushed,
      whether or not there is an active scene. */
  lemma AddThenRemoveModulator(s: SceneState, init: Modulator)
    ensures RemoveModulator(AddModulator(s, init), -1) == s
    ensures HasActive(s) ==>
      RemoveModulator(AddModulator(s, init), |ActiveScene(s).modulators|) == s
  {
    if HasActive(s) {
      var sc := ActiveScene(s);
      SpliceUndoesPush(sc.modulators, init);
      assert s.byId[s.active := sc] == s.byId;
    }
  }

  /** Incrementing by zero changes nothing when the modulator's four shape
      controls already lie in `[0, 1]`. */
  lemma IncrementModulatorByZero(s: SceneState, index: int)
    requires ModulatorIndexOk(s, index)
    requires HasActive(s) ==>
      var lfo := ActiveModulator(s, index).lfo;
      0.0 <= lfo.flip <= 1.0 && 0.0 <= lfo.phaseShift <= 1.0
      && 0.0 <= lfo.skew <= 1.0 && 0.0 <= lfo.symmetricSkew <= 1.0
    ensures IncrementModulator(s, IncrementModulatorPayload(index, 0.0, 0.0, 0.0, 0.0)) == s
  {
    if HasActive(s) {
      var sc := ActiveScene(s);
      var m := sc.modulators[index];
      assert IncrementLfo(m.lfo, IncrementModulatorPayload(index, 0.0, 0.0, 0.0, 0.0)) == m.lfo;
      assert sc.modulators[index := m] == sc.modulators;
      assert s.byId[s.active := sc] == s.byId;
    }
  }

  /** Incrementing the period by zero changes nothing when the period
      already lies in `[MinPeriod, MaxPeriod]`; clamping an out-of-range
      period is what the zero increment does otherwise. */
  lemma IncrementPeriodByZero(s: SceneState, index: int)
    requires ModulatorIndexOk(s, index)
    requires HasActive(s) ==> MinPeriod <= ActiveModulator(s, index).lfo.period <= MaxPeriod
    ensures IncrementPeriod(s, index, 0.0) == s
  {
    if HasActive(s) {
      var sc := ActiveScene(s);
      var m := sc.modulators[index];
      assert m.(lfo := m.lfo.(period := Clamp(m.lfo.period + 0.0, MinPeriod, MaxPeriod))) == m;
      assert sc.modulators[index := m] == sc.modulators;
      assert s.byId[s.active := sc] == s.byId;
    }
  }

  /** Setting a period and then incrementing it lands inside the period
      bounds whatever value was set. */
  lemma SetThenIncrementPeriodInRange(s: SceneState, index: int, newVal: real, amount: real)
    requires HasActive(s) && 0 <= index < |ActiveScene(s).modulators|
    ensures var r := IncrementPeriod(SetPeriod(s, index, newVal), index, amount);
      HasActive(r) && 0 <= index < |ActiveScene(r).modulators|
      && MinPeriod <= ActiveModulator(r, index).lfo.period <= MaxPeriod
  {
  }

  // ---------------------------------------------------------------------
  // Setters: the last write wins

  lemma AutoSettersLastWriteWins(s: SceneState, a: bool, b: bool, x: real, y: real)
    ensures SetAutoSceneEnabled(SetAutoSceneEnabled(s, a), b) == SetAutoSceneEnabled(s, b)
    ensures SetAutoSceneBombacity(SetAutoSceneBombacity(s, x), y) == SetAutoSceneBombacity(s, y)
    ensures SetAutoScenePeriod(SetAutoScenePeriod(s, x), y) == SetAutoScenePeriod(s, y)
  {
  }

  lemma SceneSettersLastWriteWins(s: SceneState, x: real, y: real, a: string, b: string)
    ensures SetActiveSceneBombacity(SetActiveSceneBombacity(s, x), y) == SetActiveSceneBombacity(s, y)
    ensures SetActiveSceneName(SetActiveSceneName(s, a), b) == SetActiveSceneName(s, b)
  {
  }

  lemma SetPeriodLastWriteWins(s: SceneState, index: int, x: real, y: real)
    requires ModulatorIndexOk(s, index)
    ensures SetPeriod(SetPeriod(s, index, x), index, y) == SetPeriod(s, index, y)
  {
    if HasActive(s) {
      var sc := ActiveScene(s);
      var m := sc.modulators[index];
      var once := sc.(modulators := sc.modulators[index := m.(lfo := m.lfo.(period := y))]);
      var mx := m.(lfo := m.lfo.(period := x));
      var twice := sc.(modulators := sc.modulators[index := mx][index := mx.(lfo := mx.lfo.(period := y))]);
      assert twice == once;
    }
  }
}
