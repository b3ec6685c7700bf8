/** The record types of the application: one datatype per persisted record,
    the enumerations and the target presets of the mantra counter. The four
    preset-like records (radionics presets, healing presets, frequency presets
    and subliminal profiles) share the shape id / name / payload / createdAt,
    so they are one generic `Preset` over a module-specific payload. */
module Types {
  import opened Common

  // ---------------------------------------------------------------------
  // Global UI state

  /** A file chosen in a file input: its name, its type and its contents as
      a data URL (None when reading the file failed). */
  datatype PickedFile = PickedFile(name: string, mimeType: string, dataUrl: Option<string>)

  datatype ModuleType =
    | Radionics | SubliminalAmplifier | SubliminalMaker | QuantumHealing
    | FrequencyGenerator | MantraSiddhi | Settings

  /** The string value of each enumeration member. */
  function ModuleName(m: ModuleType): string {
    match m
    case Radionics => "Radionics"
    case SubliminalAmplifier => "SubliminalAmplifier"
    case SubliminalMaker => "SubliminalMaker"
    case QuantumHealing => "QuantumHealing"
    case FrequencyGenerator => "FrequencyGenerator"
    case MantraSiddhi => "MantraSiddhi"
    case Settings => "Settings"
  }

  /** `Object.values(ModuleType)`, in declaration order. */
  const AllModules: seq<ModuleType> :=
    [Radionics, SubliminalAmplifier, SubliminalMaker, QuantumHealing,
     FrequencyGenerator, MantraSiddhi, Settings]

  /** The enumeration member whose value is `s`, if any. */
  function ParseModule(s: string): (r: Option<ModuleType>)
    ensures r.Some? ==> ModuleName(r.value) == s
    ensures r.None? ==> forall m :: ModuleName(m) != s
  {
    if s == "Radionics" then Some(Radionics)
    else if s == "SubliminalAmplifier" then Some(SubliminalAmplifier)
    else if s == "SubliminalMaker" then Some(SubliminalMaker)
    else if s == "QuantumHealing" then Some(QuantumHealing)
    else if s == "FrequencyGenerator" then Some(FrequencyGenerator)
    else if s == "MantraSiddhi" then Some(MantraSiddhi)
    else if s == "Settings" then Some(Settings)
    else None
  }

  /** Every member's value parses back to that member. */
  lemma ParseModuleName(m: ModuleType)
    ensures ParseModule(ModuleName(m)) == Some(m)
  {
    match m
    case Radionics =>
    case SubliminalAmplifier =>
    case SubliminalMaker =>
    case QuantumHealing =>
    case FrequencyGenerator =>
    case MantraSiddhi =>
    case Settings =>
  }

  // ---------------------------------------------------------------------
  // Shared preset shape

  /** id (assigned by its creator), display name, module payload, creation time. */
  datatype Preset<P> = Preset(id: string, name: string, payload: P, createdAt: int)

  // ---------------------------------------------------------------------
  // Radionics simulator

  datatype RadionicsRates = RadionicsRates(
    trend1: int, trend2: int, trend3: int,
    target1: int, target2: int, target3: int)

  /** `keyof RadionicsRates`. */
  datatype RateDial = Trend1 | Trend2 | Trend3 | Target1 | Target2 | Target3

  function RateOf(r: RadionicsRates, d: RateDial): int {
    match d
    case Trend1 => r.trend1
    case Trend2 => r.trend2
    case Trend3 => r.trend3
    case Target1 => r.target1
    case Target2 => r.target2
    case Target3 => r.target3
  }

  /** `{ ...r, [d]: v }`: the named dial takes the new value, no other does. */
  function WithRate(r: RadionicsRates, d: RateDial, v: int): (r': RadionicsRates)
    ensures RateOf(r', d) == v
    ensures forall e :: e != d ==> RateOf(r', e) == RateOf(r, e)
  {
    match d
    case Trend1 => r.(trend1 := v)
    case Trend2 => r.(trend2 := v)
    case Trend3 => r.(trend3 := v)
    case Target1 => r.(target1 := v)
    case Target2 => r.(target2 := v)
    case Target3 => r.(target3 := v)
  }

  datatype WitnessType = Text | Image

  /** A witness is a text or an image (a data URL plus its file name). */
  datatype RadionicsWitness = RadionicsWitness(kind: WitnessType, data: string, name: Option<string>)

  datatype RadionicsPayload = RadionicsPayload(rates: RadionicsRates, attachedWitness: Option<RadionicsWitness>)

  type RadionicsPreset = Preset<RadionicsPayload>

  datatype RadionicsEmissionLog = RadionicsEmissionLog(
    id: string, timestamp: int, rates: RadionicsRates, resonanceStrength: int,
    witnessInfo: string, energyConsumed: real)

  // ---------------------------------------------------------------------
  // Subliminal amplifier

  datatype AudioTrack = AudioTrack(id: string, name: string, fileDataUrl: string, mimeType: string)

  /** Each slot holds a track id or null. */
  datatype AmplifierSettings = AmplifierSettings(
    auraExpansion: int, frequencyField: int, activeTracks: seq<Option<string>>)

  // ---------------------------------------------------------------------
  // Subliminal maker

  /** A whole JavaScript number as `parseInt` yields it: an integer, or
      `NaN` when the text does not start with a number (an emptied field). */
  datatype ParsedInt = Int(value: int) | NaN

  /** `parseInt(text)`, given the integer it reads when it reads one. */
  function FromParsed(parsed: Option<int>): (r: ParsedInt)
    ensures r.NaN? <==> parsed.None?
    ensures parsed.Some? ==> r.value == parsed.value
  {
    if parsed.Some? then Int(parsed.value) else NaN
  }

  /** The intensity and delay inputs store `parseInt` of their text. */
  datatype Affirmation = Affirmation(id: string, text: string, intensity: ParsedInt, delay: ParsedInt)

  datatype InfusionSettings = InfusionSettings(
    harmonicResonance: int, quantumEntanglement: int, ethericVibration: int)

  /** `keyof SubliminalInfusionSettings`. */
  datatype InfusionField = HarmonicResonance | QuantumEntanglement | EthericVibration

  datatype ProfilePayload = ProfilePayload(
    baseAudioId: Option<string>, affirmations: seq<Affirmation>, infusionSettings: InfusionSettings)

  type SubliminalProfile = Preset<ProfilePayload>

  // ---------------------------------------------------------------------
  // Quantum healing

  datatype HealingPayload = HealingPayload(
    chakraFocus: string, energyCoherenceTarget: real,
    harmonyMeterTarget: real, alignmentIndicatorTarget: real)

  type HealingPreset = Preset<HealingPayload>

  // ---------------------------------------------------------------------
  // Frequency generator

  datatype Waveform = Sine | Square | Sawtooth

  datatype FrequencyPayload = FrequencyPayload(frequencyHz: int, emissionIntensity: int, waveformType: Waveform)

  type FrequencyPreset = Preset<FrequencyPayload>

  // ---------------------------------------------------------------------
  // Mantra siddhi

  /** `MantraRepetitionTarget`: three fixed targets and the `Custom` sentinel. */
  const TenThousandEight: int := 10008
  const TwentyThousand: int := 20000
  const HundredThousand: int := 100000
  const Custom: int := -1

  /** The sentinel is negative, so it never equals a real target. */
  predicate IsPresetTarget(n: int) {
    n == TenThousandEight || n == TwentyThousand || n == HundredThousand
  }

  /** The channel a repetition came from: `'tap' | 'voice' | 'manual'`. */
  datatype Channel = Tap | Voice | Manual

  datatype LogEntry = LogEntry(timestamp: int, channel: Channel)

  datatype MantraSession = MantraSession(
    id: string,
    name: string,
    dateOfBirth: Option<string>,
    timeOfBirth: Option<string>,
    ritualDescription: string,
    mantraText: string,
    requiredRepetitions: int,
    currentRepetitions: int,
    isActive: bool,
    startedAt: int,
    completedAt: Option<int>,
    log: seq<LogEntry>)

  // ---------------------------------------------------------------------
  // IndexedDB schema

  /** `IDBStoreName = keyof IDBDataSchema`: one object store per record type. */
  datatype StoreName =
    | RadionicsPresets | RadionicsEmissionLogs | AudioTracks | AmplifierSettingsStore
    | SubliminalProfiles | HealingPresets | FrequencyPresets | MantraSessions
}
