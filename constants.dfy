/** The application's fixed names and default values: the database name and
    version, the eight object-store names, the three `localStorage` keys and
    the default settings of each module. */
module Constants {
  import opened Common
  import opened Types
  import opened Json

  const AppName: string := "Solo Leveller 1.0"

  // ---------------------------------------------------------------------
  // localStorage keys

  const AppSettingsKey: string := "soloLevellerAppSettings"
  const MicPermissionKey: string := "soloLevellerMicPermissionGranted"
  const WelcomeShownKey: string := "soloLevellerWelcomeMessageShown"

  /** The three keys never overwrite one another. */
  lemma StorageKeysDistinct()
    ensures AppSettingsKey != MicPermissionKey
    ensures AppSettingsKey != WelcomeShownKey
    ensures MicPermissionKey != WelcomeShownKey
  {
    assert AppSettingsKey[12] != MicPermissionKey[12];
    assert AppSettingsKey[12] != WelcomeShownKey[12];
    assert MicPermissionKey[12] != WelcomeShownKey[12];
  }

  // ---------------------------------------------------------------------
  // IndexedDB

  const DbName: string := "SoloLevellerDB"
  const DbVersion: nat := 1

  /** The value of each `DB_STORE_NAMES` entry. */
  function StoreNameString(s: StoreName): (r: string)
    ensures ParseStoreName(r) == Some(s)
  {
    match s
    case RadionicsPresets => "radionicsPresets"
    case RadionicsEmissionLogs => "radionicsEmissionLogs"
    case AudioTracks => "audioTracks"
    case AmplifierSettingsStore => "amplifierSettings"
    case SubliminalProfiles => "subliminalProfiles"
    case HealingPresets => "healingPresets"
    case FrequencyPresets => "frequencyPresets"
    case MantraSessions => "mantraSessions"
  }

  /** The store whose name is `s`, if any (the keys of `IDBDataSchema`). */
  function ParseStoreName(s: string): (r: Option<StoreName>)
  {
    if s == "radionicsPresets" then Some(RadionicsPresets)
    else if s == "radionicsEmissionLogs" then Some(RadionicsEmissionLogs)
    else if s == "audioTracks" then Some(AudioTracks)
    else if s == "amplifierSettings" then Some(AmplifierSettingsStore)
    else if s == "subliminalProfiles" then Some(SubliminalProfiles)
    else if s == "healingPresets" then Some(HealingPresets)
    else if s == "frequencyPresets" then Some(FrequencyPresets)
    else if s == "mantraSessions" then Some(MantraSessions)
    else None
  }

  /** `Object.values(DB_STORE_NAMES)`, in declaration order. */
  const AllStoreNames: seq<StoreName> :=
    [RadionicsPresets, RadionicsEmissionLogs, AudioTracks, AmplifierSettingsStore,
     SubliminalProfiles, HealingPresets, FrequencyPresets, MantraSessions]

  /** The list names every store once, and no two stores share a name. */
  lemma StoreNamesDistinct()
    ensures |AllStoreNames| == 8
    ensures forall s :: s in AllStoreNames
    ensures forall i, j :: 0 <= i < j < |AllStoreNames| ==> AllStoreNames[i] != AllStoreNames[j]
    ensures forall a, b :: StoreNameString(a) == StoreNameString(b) ==> a == b
  {
    forall s ensures s in AllStoreNames {
      match s
      case RadionicsPresets => assert AllStoreNames[0] == s;
      case RadionicsEmissionLogs => assert AllStoreNames[1] == s;
      case AudioTracks => assert AllStoreNames[2] == s;
      case AmplifierSettingsStore => assert AllStoreNames[3] == s;
      case SubliminalProfiles => assert AllStoreNames[4] == s;
      case HealingPresets => assert AllStoreNames[5] == s;
      case FrequencyPresets => assert AllStoreNames[6] == s;
      case MantraSessions => assert AllStoreNames[7] == s;
    }
    forall a, b | StoreNameString(a) == StoreNameString(b) ensures a == b {
      assert ParseStoreName(StoreNameString(a)) == Some(a);
    }
  }

  // ---------------------------------------------------------------------
  // Defaults

  /** `DEFAULT_APP_SETTINGS`, as the JSON object it is serialised to. */
  const DefaultAppSettings: Json := JObj(map["activeModule" := JStr(ModuleName(Radionics))])

  const DefaultRadionicsRates: RadionicsRates := RadionicsRates(50, 50, 50, 50, 50, 50)

  const DefaultAmplifierSettings: AmplifierSettings := AmplifierSettings(50, 50, [None, None, None])

  const DefaultInfusionSettings: InfusionSettings := InfusionSettings(50, 50, 50)

  const DefaultFrequency: FrequencyPayload := FrequencyPayload(432, 50, Sine)

  /** The defaults select Radionics and give three empty amplifier slots. */
  lemma DefaultsShape()
    ensures DefaultAppSettings.JObj? && DefaultAppSettings.fields["activeModule"] == JStr("Radionics")
    ensures "acknowledgedDisclaimer" !in DefaultAppSettings.fields
    ensures |DefaultAmplifierSettings.activeTracks| == 3
    ensures forall i :: 0 <= i < 3 ==> DefaultAmplifierSettings.activeTracks[i] == None
    ensures forall d :: RateOf(DefaultRadionicsRates, d) == 50
  {
    assert "acknowledgedDisclaimer" != "activeModule";
  }
}
