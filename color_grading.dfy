/**
 * The colour-grading context: one state cell of six slider values, three ways
 * to replace it, and the descriptor of four CSS filter magnitudes derived from it.
 */
module ColorGrading {
  import opened Wrappers

  /** The six grading parameters. Values are stored exactly as given: nothing clamps them. */
  datatype GradingState = GradingState(
    brightness: int,
    contrast: int,
    saturation: int,
    temperature: int,
    tint: int,
    exposure: int)

  /** Names of the six fields, so that properties can speak of "every other field". */
  datatype Field = Brightness | Contrast | Saturation | Temperature | Tint | Exposure

  function Get(s: GradingState, f: Field): int {
    match f
    case Brightness => s.brightness
    case Contrast => s.contrast
    case Saturation => s.saturation
    case Temperature => s.temperature
    case Tint => s.tint
    case Exposure => s.exposure
  }

  /** The initial state of the provider (and the target of `reset`). */
  const Defaults := GradingState(100, 100, 100, 0, 0, 0)

  /** `Partial<GradingState>`: each field may be left out. */
  datatype Patch = Patch(
    brightness: Option<int>,
    contrast: Option<int>,
    saturation: Option<int>,
    temperature: Option<int>,
    tint: Option<int>,
    exposure: Option<int>)

  const EmptyPatch := Patch(None, None, None, None, None, None)

  function PatchGet(p: Patch, f: Field): Option<int> {
    match f
    case Brightness => p.brightness
    case Contrast => p.contrast
    case Saturation => p.saturation
    case Temperature => p.temperature
    case Tint => p.tint
    case Exposure => p.exposure
  }

  /** The patch that supplies all six fields of `t`. */
  function FullPatch(t: GradingState): (p: Patch)
    ensures forall f :: PatchGet(p, f) == Some(Get(t, f))
  {
    Patch(Some(t.brightness), Some(t.contrast), Some(t.saturation),
          Some(t.temperature), Some(t.tint), Some(t.exposure))
  }

  /** The object spread `{ ...s, ...next }`: supplied fields win, the others are kept. */
  function Merge(s: GradingState, next: Patch): (r: GradingState)
    ensures forall f :: Get(r, f) == PatchGet(next, f).GetOr(Get(s, f))
    ensures forall f :: PatchGet(next, f).None? ==> Get(r, f) == Get(s, f)
  {
    GradingState(
      next.brightness.GetOr(s.brightness),
      next.contrast.GetOr(s.contrast),
      next.saturation.GetOr(s.saturation),
      next.temperature.GetOr(s.temperature),
      next.tint.GetOr(s.tint),
      next.exposure.GetOr(s.exposure))
  }

  /** The six values of a preset, in the order brightness, contrast, saturation, temperature, tint, exposure. */
  type Preset = (int, int, int, int, int, int)

  function FieldOfPreset(settings: Preset, f: Field): int {
    match f
    case Brightness => settings.0
    case Contrast => settings.1
    case Saturation => settings.2
    case Temperature => settings.3
    case Tint => settings.4
    case Exposure => settings.5
  }

  /**
   * The transform descriptor: brightness, contrast, saturate and hue-rotate, in the
   * order the filter string lists them. The hue is in degrees.
   */
  datatype Descriptor = Descriptor(brightness: real, contrast: real, saturate: real, hueRotate: real)

  /**
   * The arithmetic of `computeFilterString`, step by step as written; the contract
   * gives each magnitude as one exact rational in the six integer fields.
   */
  function Describe(s: GradingState): (d: Descriptor)
    ensures d.brightness == (s.brightness * (200 + s.exposure)) as real / 20000.0
    ensures d.contrast == (s.contrast * (1000 + 3 * s.exposure)) as real / 100000.0
    ensures d.saturate == s.saturation as real / 100.0
    ensures d.hueRotate == (2 * s.tint - 3 * s.temperature) as real / 5.0
  {
    var b := s.brightness as real / 100.0;
    var c := s.contrast as real / 100.0;
    var sat := s.saturation as real / 100.0;
    var hue := -(s.temperature as real) * 0.6;
    var tint := s.tint as real * 0.4;
    var exposure := s.exposure as real / 100.0;
    var exposureBrightness := 1.0 + exposure * 0.5;
    var exposureContrast := 1.0 + exposure * 0.3;
    Descriptor(b * exposureBrightness, c * exposureContrast, sat, hue + tint)
  }

  /** The provider's single state cell and its three update operations. */
  class GradingProvider {
    var state: GradingState

    constructor ()
      ensures state == Defaults
    {
      state := Defaults;
    }

    /** `setState(partial)`: changes exactly the supplied fields. */
    method SetState(next: Patch)
      modifies this
      ensures state == Merge(old(state), next)
    {
      state := Merge(state, next);
    }

    /** `reset()`: back to the defaults, whatever came before. */
    method Reset()
      modifies this
      ensures state == Defaults
    {
      state := Defaults;
    }

    /** `applyPreset(settings)`: overwrites the whole record, positionally. */
    method ApplyPreset(settings: Preset)
      modifies this
      ensures state == PresetState(settings)
    {
      state := GradingState(settings.0, settings.1, settings.2, settings.3, settings.4, settings.5);
    }

    /**
     * `computeFilterString()` on the current state, as exact magnitudes; within the
     * slider ranges every magnitude is bounded.
     */
    function ComputeFilter(): (d: Descriptor)
      reads this
      ensures d.brightness == (state.brightness * (200 + state.exposure)) as real / 20000.0
      ensures d.contrast == (state.contrast * (1000 + 3 * state.exposure)) as real / 100000.0
      ensures d.saturate == state.saturation as real / 100.0
      ensures d.hueRotate == (2 * state.tint - 3 * state.temperature) as real / 5.0
      ensures InSliderRange(state) ==>
                && 0.0 <= d.brightness <= 3.0 && 0.0 <= d.contrast <= 2.6
                && 0.0 <= d.saturate <= 2.0 && -100.0 <= d.hueRotate <= 100.0
    {
      if InSliderRange(state) then DescriptorBounds(state); Describe(state) else Describe(state)
    }
  }

  /** The slider bounds of the grading panel; the state itself is not held to them. */
  predicate InSliderRange(s: GradingState) {
    && 0 <= s.brightness <= 200
    && 0 <= s.contrast <= 200
    && 0 <= s.saturation <= 200
    && -100 <= s.temperature <= 100
    && -100 <= s.tint <= 100
    && -100 <= s.exposure <= 100
  }

  /** The defaults describe the identity transform. */
  lemma DefaultsAreNeutral()
    ensures InSliderRange(Defaults)
    ensures Describe(Defaults) == Descriptor(1.0, 1.0, 1.0, 0.0)
  {
  }

  /** Merging nothing changes nothing. */
  lemma MergeEmpty(s: GradingState)
    ensures Merge(s, EmptyPatch) == s
  {
  }

  /** Applying the same partial update twice is the same as applying it once. */
  lemma MergeIdempotent(s: GradingState, p: Patch)
    ensures Merge(Merge(s, p), p) == Merge(s, p)
  {
  }

  /** A patch that supplies every field replaces the state outright: no blending with the prior one. */
  lemma MergeFullReplaces(s: GradingState, t: GradingState)
    ensures Merge(s, FullPatch(t)) == t
  {
  }

  /** Two consecutive updates are one update in which the later patch wins field by field. */
  lemma MergeCompose(s: GradingState, p: Patch, q: Patch)
    ensures forall f :: Get(Merge(Merge(s, p), q), f) ==
                        PatchGet(q, f).GetOr(PatchGet(p, f).GetOr(Get(s, f)))
  {
  }

  /** An out-of-range write is stored as given. */
  lemma NoClamping(s: GradingState, f: Field, v: int)
    ensures Get(Merge(s, PatchOf(f, v)), f) == v
  {
  }

  /** The patch that supplies only field `f`, with value `v`. */
  function PatchOf(f: Field, v: int): (p: Patch)
    ensures PatchGet(p, f) == Some(v)
    ensures forall g :: g != f ==> PatchGet(p, g).None?
  {
    match f
    case Brightness => EmptyPatch.(brightness := Some(v))
    case Contrast => EmptyPatch.(contrast := Some(v))
    case Saturation => EmptyPatch.(saturation := Some(v))
    case Temperature => EmptyPatch.(temperature := Some(v))
    case Tint => EmptyPatch.(tint := Some(v))
    case Exposure => EmptyPatch.(exposure := Some(v))
  }

  /** Each multiplication below is bounded by bounding its factors. */
  lemma ProductBounds(x: int, y: int, yLo: int, yHi: int, xHi: int)
    requires 0 <= x <= xHi
    requires 0 <= yLo <= y <= yHi
    ensures 0 <= x * yLo <= x * y <= x * yHi <= xHi * yHi
  {
  }

  /**
   * Within the slider bounds the multipliers stay in brightness 0..3, contrast 0..2.6,
   * saturate 0..2, and the hue rotation in -100..100 degrees.
   */
  lemma {:induction false} DescriptorBounds(s: GradingState)
    requires InSliderRange(s)
    ensures 0.0 <= Describe(s).brightness <= 3.0
    ensures 0.0 <= Describe(s).contrast <= 2.6
    ensures 0.0 <= Describe(s).saturate <= 2.0
    ensures -100.0 <= Describe(s).hueRotate <= 100.0
  {
    ProductBounds(s.brightness, 200 + s.exposure, 100, 300, 200);
    ProductBounds(s.contrast, 1000 + 3 * s.exposure, 700, 1300, 200);
  }

  /** With exposure above -200, raising brightness alone raises the brightness multiplier. */
  lemma BrightnessMonotone(s: GradingState, v: int)
    requires s.exposure > -200
    requires v > s.brightness
    ensures Describe(s.(brightness := v)).brightness > Describe(s).brightness
  {
    var k := 200 + s.exposure;
    ProductPositive(v - s.brightness, k);
    assert v * k - s.brightness * k == (v - s.brightness) * k;
    assert (v * k) as real > (s.brightness * k) as real;
  }

  lemma ProductPositive(x: int, y: int)
    requires x > 0 && y > 0
    ensures x * y > 0
  {
  }

  /** No hue rotation exactly when temperature and tint cancel: three times temperature is twice tint. */
  lemma HueNeutralIff(s: GradingState)
    ensures Describe(s).hueRotate == 0.0 <==> 3 * s.temperature == 2 * s.tint
  {
  }

  /** The state a preset produces. */
  function PresetState(settings: Preset): (t: GradingState)
    ensures forall f :: Get(t, f) == FieldOfPreset(settings, f)
  {
    GradingState(settings.0, settings.1, settings.2, settings.3, settings.4, settings.5)
  }

  /** The "Cinematic" preset of the grading panel, and what it describes. */
  lemma CinematicPreset()
    ensures PresetState((95, 130, 90, -10, 5, -10)) == GradingState(95, 130, 90, -10, 5, -10)
    ensures InSliderRange(PresetState((95, 130, 90, -10, 5, -10)))
    ensures Describe(PresetState((95, 130, 90, -10, 5, -10))) == Descriptor(0.9025, 1.261, 0.9, 8.0)
  {
  }

  /** The four quick presets of the grading panel: Natural, Cinematic, Vibrant, Moody. */
  const QuickPresets: seq<Preset> :=
    [(105, 110, 105, 5, 0, 5), (95, 130, 90, -10, 5, -10), (110, 120, 140, 10, 0, 10), (85, 140, 80, -15, 10, -15)]

  /** Every quick preset lands inside the slider ranges, so its descriptor obeys the bounds. */
  lemma QuickPresetsInRange()
    ensures forall i :: 0 <= i < |QuickPresets| ==> InSliderRange(PresetState(QuickPresets[i]))
  {
  }
}
