/** The records the scene reducers work on: the scene-state document
    (`SceneState_t`), its auto-scene settings (`AutoScene_t`), and the parts
    of a scene (`Scene_t`), of its modulators and of their LFOs that the
    reducers read or write. Fields no reducer touches are left out.
 */
module SceneTypes {

  /** Scene ids are the strings `nanoid()` produces; they are taken as
      parameters here because generating them is nondeterministic. */
  type SceneId = string

  /** Parameter names. The registry of names lives in `engine/params`,
      which is not part of this model, so any string is accepted. */
  type ParamKey = string

  /** Waveform names. The set of shapes lives in `engine/oscillator`, which
      is not part of this model, and the reducers only store the value. */
  type LfoShape = string

  datatype Lfo = Lfo(
    shape: LfoShape,
    period: real,
    flip: real,
    phaseShift: real,
    skew: real,
    symmetricSkew: real)

  /** One LFO with its routing table: parameter name to modulation depth. */
  datatype Modulator = Modulator(lfo: Lfo, modulation: map<ParamKey, real>)

  datatype Scene = Scene(
    name: string,
    bombacity: real,
    baseParams: map<ParamKey, real>,
    modulators: seq<Modulator>,
    randomizer: map<string, real>)

  datatype AutoScene = AutoScene(enabled: bool, bombacity: real, period: real)

  /** The whole slice: scene ids in display order, the scenes by id, the
      selected scene's id, and the auto-scene settings. */
  datatype SceneState = SceneState(
    ids: seq<SceneId>,
    byId: map<SceneId, Scene>,
    active: SceneId,
    auto: AutoScene)

  /** The payload of `incrementModulator`: which modulator, and the amount
      to add to each of four LFO shape controls. */
  datatype IncrementModulatorPayload = IncrementModulatorPayload(
    index: int,
    flip: real,
    phaseShift: real,
    skew: real,
    symmetricSkew: real)
}
