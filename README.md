# Solo Leveller, modelled in Dafny

Solo Leveller is an offline single-page React application with six
"simulation" modules and a settings panel:

- Radionics: six rate dials, an energy pool, emissions and their log.
- Subliminal Amplifier: three audio slots and two sliders.
- Subliminal Maker: affirmation profiles exported as JSON.
- Quantum Healing: three meters that rise towards random targets.
- Frequency Generator: a tone with a waveform and an intensity.
- Mantra Siddhi: a repetition counter fed by taps and by voice onsets.

Each module keeps its records in a small persistence layer,
`StorageService`. It holds eight IndexedDB object stores keyed by `id`,
one of them a singleton settings store. It also keeps a few flags and the
app settings in `localStorage`. The modules that keep named presets
follow one shared pattern:

- save a new preset under a fresh id and keep the list newest first;
- load a preset and delete one;
- remember the last selected preset;
- auto-save the selected preset, keeping its creation time.

This project models that core in Dafny and proves what each operation
promises.

Modules and files:

| file | module | what it holds |
|---|---|---|
| common.dfy | Common | `Option`, ECMAScript white space and `trim`, ASCII case mapping, string truthiness |
| types.dfy | Types | the record types and enumerations of `types.ts`, with the mantra target presets |
| constants.dfy | Constants | store names, `localStorage` keys and default settings of `constants.ts` |
| json.dfy | Json | parsed JSON values, object spread and property deletion |
| lists.dfy | Lists | the newest-first sort, `find`, replace-by-id `map` and `filter` the modules apply |
| storage.dfy | Storage | the database as a map from store to a map from id to record; `LocalStorage` and `StorageService` classes; `dataUrlToBlob` |
| presets.dfy | Presets | the shared preset-list invariant (newest first, unique ids) and auto-save |
| radionics.dfy, healing.dfy, frequency.dfy, maker.dfy, amplifier.dfy, mantra.dfy | one per module | a class per component, with its state as fields and one method per handler or effect |
| dial.dfy | Dial | the rotary dial: drag arithmetic, clamp and indicator angle |
| app.dfy | App | the application shell: settings load and persist, module switch, welcome flow, navigation labels |

Modelling conventions:

- Every React handler is one atomic method of its component's class.
  Effects (auto-save, persisting settings) are separate methods.
- The clock (`Date.now`), `uuidv4`, `Math.random`, the answer to
  `window.confirm`, `JSON.parse`/`JSON.stringify`, `atob` and the outcome
  of microphone capture are parameters.
- An awaited storage call that rejects stops the rest of its handler.
  A write that is not awaited, as in the auto-save effects, ignores a failure.
- JavaScript numbers are `real` where the code works with fractions: the
  dial, the energy pool, the healing meters. They are `int` where only
  whole numbers occur: counts, targets, timestamps. An affirmation's
  intensity and delay come from `parseInt` and may be `NaN`; they are a
  `ParsedInt`, an integer or `NaN`.
- Microphone permission is the `localStorage` flag: the modules read it
  on load, and a permission request stores the prompt's answer in it.

## Model

| member | source | states |
|---|---|---|
| Amplifier.WithSlot | extracted/js/components/modules/SubliminalAmplifier.tsx:56-60 | writing one slot on a copy changes only that slot and keeps the two sliders |
| Amplifier.SlotWrites | extracted/js/components/modules/SubliminalAmplifier.tsx:56-84 | the last write to a slot wins, and writes to different slots commute |
| Amplifier.TrackAt | extracted/js/components/modules/SubliminalAmplifier.tsx:243 | a slot shows a listed track with its id, and shows none exactly when the slot is empty or no track has the id |
| Amplifier.DefaultsDisablePlayback | extracted/js/components/modules/SubliminalAmplifier.tsx:320 | with the default settings every slot is empty, so the playback button is disabled |
| Amplifier.Deviation | extracted/js/components/modules/SubliminalAmplifier.tsx:198-201 | one sample's deviation from the centre line is between 0 and 1 (in 128ths), and 0 exactly on the centre line |
| Amplifier.SumDeviation | extracted/js/components/modules/SubliminalAmplifier.tsx:196-201 | the summed deviation of a buffer is at most one per sample |
| Amplifier.InputLevel | extracted/js/components/modules/SubliminalAmplifier.tsx:211 | the input level is always between 0 and 100 |
| Amplifier.SilenceReadsZero | extracted/js/components/modules/SubliminalAmplifier.tsx:196-211 | a silent buffer reads 0 |
| Amplifier.SilentSum | extracted/js/components/modules/SubliminalAmplifier.tsx:196-201 | a silent buffer has no deviation |
| Amplifier.LoudReadsFull | extracted/js/components/modules/SubliminalAmplifier.tsx:211 | a buffer that deviates by half or more on average reads the full 100 |
| Amplifier.StoredSettingsLost | extracted/js/components/modules/SubliminalAmplifier.tsx:32-39 | once the defaults have been written first, settings other than the defaults stored in an earlier visit can no longer be read back |
| Amplifier.TracksShown | extracted/js/components/modules/SubliminalAmplifier.tsx:25-27 | the loaded tracks show every stored track exactly once |
| Amplifier.SubliminalAmplifier.constructor | extracted/js/components/modules/SubliminalAmplifier.tsx:11-15 | the first render has no tracks, the default settings, no playback, no permission and a level of 0 |
| Amplifier.SubliminalAmplifier.LoadInitialData | extracted/js/components/modules/SubliminalAmplifier.tsx:24-30 | the tracks show their store, the settings are the stored singleton or the defaults, and the permission flag is the one stored in `localStorage`; a failing read changes nothing |
| Amplifier.SubliminalAmplifier.Show | extracted/js/components/modules/SubliminalAmplifier.tsx:27-29 | sets the tracks, the settings and the permission flag from what was read, and nothing else |
| Amplifier.SubliminalAmplifier.PersistSettings | extracted/js/components/modules/SubliminalAmplifier.tsx:36-39 | the persistence effect writes the current settings at id `'singleton'`, and a failed write changes nothing |
| Amplifier.SubliminalAmplifier.FileChanged | extracted/js/components/modules/SubliminalAmplifier.tsx:41-63 | a readable file is stored as a new track, appended to the tracks and put in the slot; no file, an unreadable file or a failed write changes nothing |
| Amplifier.SubliminalAmplifier.RemoveTrack | extracted/js/components/modules/SubliminalAmplifier.tsx:65-77 | a filled slot is emptied and the track stays listed; an empty slot is left alone |
| Amplifier.SubliminalAmplifier.SlotTrackChanged | extracted/js/components/modules/SubliminalAmplifier.tsx:79-85 | choosing a track changes only that slot |
| Amplifier.SubliminalAmplifier.TogglePlayback | extracted/js/components/modules/SubliminalAmplifier.tsx:87-89 | a toggle flips only the playing flag |
| Amplifier.SubliminalAmplifier.AuraExpansionChanged | extracted/js/components/modules/SubliminalAmplifier.tsx:91-93 | the slider changes only the aura expansion |
| Amplifier.SubliminalAmplifier.FrequencyFieldChanged | extracted/js/components/modules/SubliminalAmplifier.tsx:95-97 | the slider changes only the frequency field |
| Amplifier.SubliminalAmplifier.RequestMic | extracted/js/components/modules/SubliminalAmplifier.tsx:99-102 | the prompt's answer becomes the permission flag on screen and in `localStorage`, where it then reads back as given; nothing else changes |
| Amplifier.SubliminalAmplifier.DrawWaveform | extracted/js/components/modules/SubliminalAmplifier.tsx:177-216 | a frame sets only the input level, computed from the analyser's bytes |
| Amplifier.SubliminalAmplifier.DrawingEffect | extracted/js/components/modules/SubliminalAmplifier.tsx:218-231 | with nothing playing and no microphone stream the level drops to 0; otherwise the effect changes no state |
| Amplifier.SubliminalAmplifier.MountAsWritten | extracted/js/components/modules/SubliminalAmplifier.tsx:32-39 | mounting as written leaves the default settings on screen and in storage, whatever was stored before |
| Amplifier.SubliminalAmplifier.MountCorrected | extracted/js/components/modules/SubliminalAmplifier.tsx:24-39 | reading before writing shows the settings stored in an earlier visit, and the write that follows stores them unchanged |
| App.ModuleChanged | extracted/App.tsx:46-48 | the new settings name the chosen module and hold exactly the other keys of the spread old settings |
| App.ModuleChangedKeepsOthers | extracted/App.tsx:46-48 | a switch keeps every other stored setting as it was, and switching twice to the same module is the same as once |
| App.OneHighlighted | extracted/App.tsx:150 | after a switch exactly the chosen module's button is highlighted |
| App.ModuleNamesDistinct | extracted/App.tsx:144-155 | different modules have different names, so the keyed buttons are distinct |
| App.Rendered | extracted/App.tsx:55-132 | the shell renders exactly when the stored active module is a string; the HUD shows it upper-cased; a module other than Radionics is shown only when it is the highlighted one, and Radionics is shown when no module is named |
| App.ChosenModuleShown | extracted/App.tsx:46-132 | whatever was stored before, the shell shows the module just chosen and the HUD names it upper-cased |
| App.SpacedAppend | extracted/App.tsx:153 | putting a space before each capital letter of a concatenation does it to each part |
| App.SpacedWord | extracted/App.tsx:153 | a capitalised word with no other capital gets one space in front |
| App.NoCapitalUnspaced | extracted/App.tsx:153 | a text without capital letters is left as it is |
| App.AlnumNotSpace | extracted/App.tsx:153 | a letter or digit is never trimmed as white space |
| App.TrimLeadingSpace | extracted/App.tsx:153 | trimming a space-led text that neither starts nor ends with white space drops only the leading space |
| App.UpperJoin | extracted/App.tsx:153 | upper-casing two words joined by a space upper-cases each word |
| App.SpacedTwoWords | extracted/App.tsx:153 | spacing two capitalised words puts a space before each |
| App.TwoWordLabel | extracted/App.tsx:153 | the label of a two-word name is both words upper-cased with one space between them |
| App.OneWordLabel | extracted/App.tsx:153 | the label of a one-word name is the word upper-cased |
| App.TwoWordNavLabel | extracted/App.tsx:153 | a module named by two words is labelled by them upper-cased and separated by a space |
| App.OneWordNavLabel | extracted/App.tsx:153 | a module named by one word is labelled by it upper-cased |
| App.NavLabelRadionics | extracted/App.tsx:153 | the Radionics button reads RADIONICS |
| App.NavLabelSubliminalAmplifier | extracted/App.tsx:153 | the SubliminalAmplifier button reads SUBLIMINAL AMPLIFIER |
| App.NavLabelSettings | extracted/App.tsx:153 | the Settings button reads SETTINGS |
| App.App.constructor | extracted/App.tsx:18-20 | the shell starts with the default settings, loading, and no welcome dialog |
| App.App.View | extracted/App.tsx:120-132 | the loader shows exactly while loading; otherwise the screen is the render of the settings, and the welcome dialog shows as its flag says |
| App.App.LoadAppSettings | extracted/App.tsx:22-33 | the stored settings replace the defaults, the welcome dialog opens when the welcome flag is not set, and loading ends |
| App.App.Persist | extracted/App.tsx:39-44 | once loading is over the settings are serialised under their key and nothing else is written; settings the serialiser and the parser agree on read back unchanged |
| App.App.ModuleChange | extracted/App.tsx:46-48 | the settings become the switched settings; loading and the dialog are untouched |
| App.App.CloseWelcomeModal | extracted/App.tsx:50-53 | the dialog hides, the welcome flag is stored as true and then reads as set, and the settings are untouched |
| App.App.ViewWelcome | extracted/App.tsx:77 | the welcome dialog opens and nothing else changes |
| App.App.ResetMicPermission | extracted/App.tsx:86-87 | the permission key is removed, and the permission then reads as not granted |
| App.FirstLoad | extracted/App.tsx:17-37 | after mounting and loading, the shell renders the stored settings, and the welcome dialog shows exactly on a first visit |
| Common.TrimStartSpec | extracted/js/components/modules/RadionicsSimulator.tsx:73 | the leading half of `trim()` drops exactly the leading run of white space |
| Common.TrimEndSpec | extracted/js/components/modules/RadionicsSimulator.tsx:73 | the trailing half of `trim()` drops exactly the trailing run of white space |
| Common.TrimProperties | extracted/js/components/modules/RadionicsSimulator.tsx:73-77 | a name is blank exactly when it is all white space, and a trimmed name neither starts nor ends with white space |
| Common.TrimIdempotent | extracted/js/components/modules/RadionicsSimulator.tsx:77 | trimming a trimmed name changes nothing |
| Common.OrElse | extracted/js/components/modules/MantraSiddhi.tsx:118 | a name falls back to the default exactly when it is empty |
| Common.NonEmpty | extracted/js/components/modules/MantraSiddhi.tsx:119-120 | an optional field is left absent exactly when its input is empty |
| Common.OrEmpty | extracted/js/components/modules/MantraSiddhi.tsx:47-48 | an absent optional field shows as the empty string |
| Common.OptionalRoundTrip | extracted/js/components/modules/MantraSiddhi.tsx:47-48 | a form field and the optional value stored for it convert into each other without loss |
| Common.AsciiUpperChar | extracted/App.tsx:132 | `toUpperCase` raises an ASCII lower-case letter by 32 and keeps every other character |
| Common.AsciiUpper | extracted/App.tsx:132 | upper-casing works character by character and keeps the length |
| Common.AsciiLowerChar | extracted/js/services/storageService.ts:290 | lower-casing lowers an ASCII capital by 32 and keeps every other character |
| Common.AsciiLower | extracted/js/services/storageService.ts:290 | lower-casing works character by character and keeps the length |
| Common.NatToString | extracted/App.tsx:47 | `String(n)` of a natural number is a non-empty run of decimal digits, one digit exactly below ten |
| Common.NatToStringInjective | extracted/App.tsx:47 | distinct indices print as distinct keys |
| Common.Round | extracted/js/components/UI/Dial.tsx:39 | `Math.round(x)` is the integer in (x - 0.5, x + 0.5] |
| Types.FromParsed | extracted/js/components/modules/SubliminalMaker.tsx:242 | `parseInt` gives `NaN` exactly when it reads no integer, and the integer it reads otherwise |
| Types.ParseModule | extracted/types.ts:2-10 | a string parses to the member whose value it is, and to nothing exactly when no member has that value |
| Types.ParseModuleName | extracted/types.ts:2-10 | every member's value parses back to that member |
| Types.WithRate | extracted/js/components/modules/RadionicsSimulator.tsx:88 | `{ ...prev, [dial]: v }` sets the named dial to v and keeps the other five |
| Json.Spread | extracted/App.tsx:47 | `{ ...prev }` copies an object's fields, an array's elements and a string's one-character strings under the keys "0", "1", ..., and nothing for other values |
| Json.IndexMap | extracted/App.tsx:47 | a spread array or string gets exactly the keys "0", "1", ..., each holding its element |
| Constants.StorageKeysDistinct | extracted/constants.ts:19-23 | the three localStorage keys are pairwise distinct |
| Constants.StoreNameString | extracted/constants.ts:29-38 | each store's name parses back to that store |
| Constants.StoreNamesDistinct | extracted/constants.ts:29-38 | the eight store names are listed once each and never clash |
| Constants.DefaultsShape | extracted/constants.ts:15-50 | the default settings select Radionics, the amplifier starts with three empty slots, and every radionics dial starts at 50 |
| Dial.Clamp | extracted/js/components/UI/Dial.tsx:41 | the clamped value lies in the range when the range is not empty, is the value itself when it already lies there, and is the nearer bound otherwise |
| Dial.DragValue | extracted/js/components/UI/Dial.tsx:38-41 | the value a drag emits always lies within a non-empty range |
| Dial.NoMoveNoChange | extracted/js/components/UI/Dial.tsx:38-41 | releasing where the drag began gives back the starting value when it lies in the range |
| Dial.RoundMonotone | extracted/js/components/UI/Dial.tsx:40 | rounding as `Math.round` does never decreases as its argument grows |
| Dial.ClampMonotone | extracted/js/components/UI/Dial.tsx:41 | clamping never reverses an order |
| Dial.DragMonotone | extracted/js/components/UI/Dial.tsx:38-41 | with a non-negative step, moving the pointer higher never lowers the emitted value |
| Dial.Angle | extracted/js/components/UI/Dial.tsx:27 | there is no angle exactly when the range is a single point, where the division fails |
| Dial.AngleWithinArc | extracted/js/components/UI/Dial.tsx:27 | the minimum points to -135 degrees, the maximum to 135 degrees, and every value in range points between them |
| Dial.AngleMonotone | extracted/js/components/UI/Dial.tsx:27 | a higher value turns the indicator further clockwise |
| Dial.Dial.constructor | extracted/js/components/UI/Dial.tsx:13-25 | the dial keeps its range and step, starts not dragging, and remembers 0 as start position and value |
| Dial.Dial.StartDrag | extracted/js/components/UI/Dial.tsx:29-33 | a drag begins, remembering the pointer height and the value shown then |
| Dial.Dial.Drag | extracted/js/components/UI/Dial.tsx:35-43 | nothing is emitted exactly when no drag is in progress; otherwise the emitted value is the drag value, within the range |
| Dial.Dial.StopDrag | extracted/js/components/UI/Dial.tsx:45-47 | the drag ends and the remembered start is kept |
| Dial.Dial.TouchStart | extracted/js/components/UI/Dial.tsx:63-67 | a drag begins exactly under one finger, at that finger's height; any other touch changes nothing |
| Dial.Dial.TouchMove | extracted/js/components/UI/Dial.tsx:69-73 | a touch with more or fewer than one finger emits nothing; with one finger a value is emitted exactly while dragging, and it is the drag value at that finger's height |
| Frequency.Loading | extracted/js/components/modules/FrequencyGenerator.tsx:93-100 | loading a preset sets its name and its three settings and selects its id, keeping the list and the emitting flag |
| Frequency.Cleared | extracted/js/components/modules/FrequencyGenerator.tsx:113-119 | deleting the selected preset resets the settings to 432 Hz, intensity 50 and sine, with no name and no selection |
| Frequency.PresetsShown | extracted/js/components/modules/FrequencyGenerator.tsx:23-24 | the loaded presets are newest first and show every stored preset exactly once |
| Frequency.FrequencyGenerator.constructor | extracted/js/components/modules/FrequencyGenerator.tsx:12-18 | the first render has 432 Hz, intensity 50, sine, an empty list, no selection and no emission |
| Frequency.FrequencyGenerator.LoadInitialData | extracted/js/components/modules/FrequencyGenerator.tsx:22-37 | the list shows the store newest first; the preset named by the last-active key is loaded when it is listed, and the key is written again; a failing read changes nothing |
| Frequency.FrequencyGenerator.Restore | extracted/js/components/modules/FrequencyGenerator.tsx:26-32 | loads the listed preset that the last-active key names, and otherwise changes nothing |
| Frequency.FrequencyGenerator.Show | extracted/js/components/modules/FrequencyGenerator.tsx:23-24 | shows the listing newest first and changes nothing else |
| Frequency.FrequencyGenerator.Apply | extracted/js/components/modules/FrequencyGenerator.tsx:93-100 | a listed preset is loaded and remembered as last active |
| Frequency.FrequencyGenerator.FrequencyChanged | extracted/js/components/modules/FrequencyGenerator.tsx:57-59 | the frequency slider changes only the frequency |
| Frequency.FrequencyGenerator.IntensityChanged | extracted/js/components/modules/FrequencyGenerator.tsx:61-63 | the intensity slider changes only the intensity |
| Frequency.FrequencyGenerator.WaveformChanged | extracted/js/components/modules/FrequencyGenerator.tsx:65-67 | the waveform selector changes only the waveform |
| Frequency.FrequencyGenerator.ToggleEmission | extracted/js/components/modules/FrequencyGenerator.tsx:69-71 | a toggle flips only the emitting flag, so two toggles restore the state |
| Frequency.FrequencyGenerator.PresetNameChanged | extracted/js/components/modules/FrequencyGenerator.tsx:276 | the name field changes only the preset name |
| Frequency.FrequencyGenerator.SavePreset | extracted/js/components/modules/FrequencyGenerator.tsx:73-91 | a blank name changes nothing; otherwise the current settings are stored under a fresh id, and the preset joins the list newest first, is selected and is remembered |
| Frequency.FrequencyGenerator.Select | extracted/js/components/modules/FrequencyGenerator.tsx:87-89 | the saved preset joins the list newest first, is selected and is remembered |
| Frequency.FrequencyGenerator.LoadPreset | extracted/js/components/modules/FrequencyGenerator.tsx:102-107 | a listed id loads that preset; an unknown id changes nothing |
| Frequency.FrequencyGenerator.DeletePreset | extracted/js/components/modules/FrequencyGenerator.tsx:109-122 | without confirmation nothing changes; otherwise the record and its list entry go, and deleting the selected preset also restores the default settings, clears the name and selection and forgets the key |
| Frequency.FrequencyGenerator.Forget | extracted/js/components/modules/FrequencyGenerator.tsx:112-120 | drops the preset from the list, and resets the form only when it was the selected one |
| Frequency.FrequencyGenerator.AutoSave | extracted/js/components/modules/FrequencyGenerator.tsx:39-54 | with a selection and a non-blank name, the selected preset is rewritten in the list and the database with the trimmed name, the current settings and its original creation time; otherwise nothing changes |
| Healing.Round2 | extracted/js/components/modules/QuantumHealing.tsx:92-96 | `parseFloat(x.toFixed(2))` lies within half a hundredth of x and on the hundredths grid |
| Healing.Round2Monotone | extracted/js/components/modules/QuantumHealing.tsx:92-96 | rounding to two decimals never reorders two values |
| Healing.Round2OnGrid | extracted/js/components/modules/QuantumHealing.tsx:92-96 | a value already on the hundredths grid is kept as it is |
| Healing.Target | extracted/js/components/modules/QuantumHealing.tsx:71-73 | a target is at most 95, and below that cap it is the meter plus less than 20, never below the meter |
| Healing.Step | extracted/js/components/modules/QuantumHealing.tsx:78-82 | a meter below its target rises by less than 5 without passing the target, and a meter at or above its target stays |
| Healing.TickNeverLowers | extracted/js/components/modules/QuantumHealing.tsx:77-97 | a tick never lowers a meter on the grid, keeps it on the grid, and leaves a meter that was at most its target no more than half a hundredth above it |
| Healing.Loading | extracted/js/components/modules/QuantumHealing.tsx:141-149 | loading a preset sets its name, chakra and three meter values and selects its id, and changes nothing else |
| Healing.PresetsShown | extracted/js/components/modules/QuantumHealing.tsx:32-33 | the loaded presets are newest first and show every stored preset exactly once |
| Healing.QuantumHealing.constructor | extracted/js/components/modules/QuantumHealing.tsx:20-29 | the first render has no chakra, three meters at 50, no run, an empty list and no selection |
| Healing.QuantumHealing.LoadInitialData | extracted/js/components/modules/QuantumHealing.tsx:31-46 | the list shows the store newest first; the preset named by the last-active key is loaded when it is listed, and the key is written again; a failing read changes nothing |
| Healing.QuantumHealing.Restore | extracted/js/components/modules/QuantumHealing.tsx:35-41 | loads the listed preset that the last-active key names, and otherwise changes nothing |
| Healing.QuantumHealing.Show | extracted/js/components/modules/QuantumHealing.tsx:32-33 | shows the listing newest first and changes nothing else |
| Healing.QuantumHealing.Apply | extracted/js/components/modules/QuantumHealing.tsx:141-149 | a listed preset is loaded and remembered as last active |
| Healing.QuantumHealing.ChakraClicked | extracted/js/components/modules/QuantumHealing.tsx:223 | a click on a chakra only focuses that chakra |
| Healing.QuantumHealing.StartHealing | extracted/js/components/modules/QuantumHealing.tsx:67-100 | a second start is ignored; otherwise the run starts with each target equal to its meter plus its random amount, capped at 95 |
| Healing.QuantumHealing.Tick | extracted/js/components/modules/QuantumHealing.tsx:76-98 | each meter below its target moves towards it and is stored to two decimals; once all three unrounded values reach their targets, the interval is cleared and the run ends |
| Healing.QuantumHealing.StopHealing | extracted/js/components/modules/QuantumHealing.tsx:103-109 | stopping always ends the run and clears the interval |
| Healing.QuantumHealing.PresetNameChanged | extracted/js/components/modules/QuantumHealing.tsx:287 | the name field changes only the preset name |
| Healing.QuantumHealing.SavePreset | extracted/js/components/modules/QuantumHealing.tsx:121-139 | a blank name changes nothing; otherwise the current chakra and meters are stored under a fresh id, and the preset joins the list newest first, is selected and is remembered |
| Healing.QuantumHealing.Select | extracted/js/components/modules/QuantumHealing.tsx:136-138 | the saved preset joins the list newest first, is selected and is remembered |
| Healing.QuantumHealing.LoadPreset | extracted/js/components/modules/QuantumHealing.tsx:151-156 | a listed id loads that preset; an unknown id changes nothing |
| Healing.QuantumHealing.DeletePreset | extracted/js/components/modules/QuantumHealing.tsx:158-172 | without confirmation nothing changes; otherwise the record and its list entry go, and deleting the selected preset also clears the name and chakra, resets the meters to 50 and forgets the key |
| Healing.QuantumHealing.Forget | extracted/js/components/modules/QuantumHealing.tsx:161-170 | drops the preset from the list, and resets the form only when it was the selected one |
| Healing.QuantumHealing.AutoSave | extracted/js/components/modules/QuantumHealing.tsx:48-64 | with a selection and a non-blank name, the selected preset is rewritten in the list and the database with the trimmed name, the current chakra and meters and its original creation time; otherwise nothing changes |
| Maker.Added | extracted/js/components/modules/SubliminalMaker.tsx:61-63 | adding appends one empty entry with intensity 50 and delay 0 under the fresh id, and keeps the others in place |
| Maker.Edited | extracted/js/components/modules/SubliminalMaker.tsx:65-67 | editing an entry changes only the named field and keeps its id; an intensity or delay that `parseInt` cannot read (an emptied input) becomes `NaN` |
| Maker.Updated | extracted/js/components/modules/SubliminalMaker.tsx:65-67 | only entries with the id are edited, and every id and position is kept |
| Maker.Removed | extracted/js/components/modules/SubliminalMaker.tsx:69-71 | removing keeps exactly the entries with another id |
| Maker.RemoveUndoesAdd | extracted/js/components/modules/SubliminalMaker.tsx:61-71 | removing an entry just added under a fresh id gives the list back |
| Maker.RemoveAfterUpdate | extracted/js/components/modules/SubliminalMaker.tsx:65-71 | editing an entry and then removing it is the same as removing it |
| Maker.NonBlank | extracted/js/components/modules/SubliminalMaker.tsx:99 | the saved affirmations are exactly those whose text is not blank |
| Maker.NonBlankIdempotent | extracted/js/components/modules/SubliminalMaker.tsx:99-100 | dropping blank entries twice is dropping them once, and nothing is left exactly when every entry is blank |
| Maker.Shown | extracted/js/components/modules/SubliminalMaker.tsx:124 | a profile's affirmations are shown as stored, or as one fresh default entry when it has none |
| Maker.WithInfusion | extracted/js/components/modules/SubliminalMaker.tsx:73-75 | an infusion slider changes only its own setting |
| Maker.BaseAudioName | extracted/js/components/modules/SubliminalMaker.tsx:184-186 | the label is the name of the first track with the id when that name is not empty, and "No audio selected" when no track has the id or its name is empty |
| Maker.SaveRejection | extracted/js/components/modules/SubliminalMaker.tsx:90-103 | the save is refused for a blank name first, then for a missing base audio, then for having no affirmation with text |
| Maker.SaveAccepted | extracted/js/components/modules/SubliminalMaker.tsx:90-103 | a profile is saved exactly when it has a name, a base audio track and an affirmation with text |
| Maker.Sanitized | extracted/js/components/modules/SubliminalMaker.tsx:159 | `replace(/[^a-z0-9]/gi, '_')` keeps ASCII letters and digits and turns every other character into `_` |
| Maker.ExportFileName | extracted/js/components/modules/SubliminalMaker.tsx:159 | the download name is the name with every non-alphanumeric character turned into `_`, followed by ".json" |
| Maker.SanitizedIdempotent | extracted/js/components/modules/SubliminalMaker.tsx:159 | sanitising a sanitised name changes nothing |
| Maker.Loading | extracted/js/components/modules/SubliminalMaker.tsx:121-128 | loading a profile sets its name, base audio (empty when absent), affirmations (one fresh entry when none), settings and id, keeping the lists |
| Maker.Cleared | extracted/js/components/modules/SubliminalMaker.tsx:141-149 | deleting the selected profile resets the form to no name, no audio, one fresh entry, default settings and no selection |
| Maker.PayloadOf | extracted/js/components/modules/SubliminalMaker.tsx:47-53 | auto-save stores the base audio only when one is chosen, only the affirmations with text, and the settings |
| Maker.LoadThenSave | extracted/js/components/modules/SubliminalMaker.tsx:44-58 | a loaded profile whose affirmations all have text saves back its own payload |
| Maker.ProfilesShown | extracted/js/components/modules/SubliminalMaker.tsx:25-27 | the loaded profiles are newest first and show every stored profile exactly once |
| Maker.TracksShown | extracted/js/components/modules/SubliminalMaker.tsx:24-26 | the loaded tracks show every stored track exactly once |
| Maker.SubliminalMaker.constructor | extracted/js/components/modules/SubliminalMaker.tsx:15-21 | the form starts with no name, no audio, one empty affirmation, default settings, empty lists and no selection |
| Maker.SubliminalMaker.LoadInitialData | extracted/js/components/modules/SubliminalMaker.tsx:23-41 | the tracks and the profiles (newest first) show their stores; the profile named by the last-active key is loaded when it is listed; a failing read changes nothing |
| Maker.SubliminalMaker.Show | extracted/js/components/modules/SubliminalMaker.tsx:24-27 | shows both listings and changes nothing else |
| Maker.SubliminalMaker.Restore | extracted/js/components/modules/SubliminalMaker.tsx:30-36 | loads the listed profile that the last-active key names, and otherwise changes nothing |
| Maker.SubliminalMaker.Apply | extracted/js/components/modules/SubliminalMaker.tsx:121-128 | a listed profile is loaded and remembered as last active |
| Maker.SubliminalMaker.AddAffirmation | extracted/js/components/modules/SubliminalMaker.tsx:61-63 | adding changes only the affirmation list, as Added says |
| Maker.SubliminalMaker.UpdateAffirmation | extracted/js/components/modules/SubliminalMaker.tsx:65-67 | editing changes only the affirmation list, as Updated says |
| Maker.SubliminalMaker.RemoveAffirmation | extracted/js/components/modules/SubliminalMaker.tsx:69-71 | removing changes only the affirmation list, as Removed says |
| Maker.SubliminalMaker.InfusionSettingChanged | extracted/js/components/modules/SubliminalMaker.tsx:73-75 | a slider changes only its own infusion setting |
| Maker.SubliminalMaker.ProfileNameChanged | extracted/js/components/modules/SubliminalMaker.tsx:197 | the name field changes only the profile name |
| Maker.SubliminalMaker.BaseAudioSelected | extracted/js/components/modules/SubliminalMaker.tsx:218 | choosing a listed track changes only the base audio |
| Maker.SubliminalMaker.BaseAudioFileChanged | extracted/js/components/modules/SubliminalMaker.tsx:77-88 | a readable file is stored as a new track, appended to the tracks and made the base audio; no file, an unreadable file or a failed write changes nothing |
| Maker.SubliminalMaker.SaveProfile | extracted/js/components/modules/SubliminalMaker.tsx:90-119 | a refused save changes nothing; otherwise the profile is stored under a fresh id with the trimmed name and the non-blank affirmations, joins the list newest first, is selected and is remembered |
| Maker.SubliminalMaker.Select | extracted/js/components/modules/SubliminalMaker.tsx:115-117 | the saved profile joins the list newest first, is selected and is remembered |
| Maker.SubliminalMaker.LoadProfile | extracted/js/components/modules/SubliminalMaker.tsx:130-135 | a listed id loads that profile; an unknown id changes nothing |
| Maker.SubliminalMaker.DeleteProfile | extracted/js/components/modules/SubliminalMaker.tsx:137-151 | without confirmation nothing changes; otherwise the record and its list entry go, and deleting the selected profile also resets the form and forgets the key |
| Maker.SubliminalMaker.Forget | extracted/js/components/modules/SubliminalMaker.tsx:140-149 | drops the profile from the list, and resets the form only when it was the selected one |
| Maker.SubliminalMaker.AutoSave | extracted/js/components/modules/SubliminalMaker.tsx:43-58 | with a selection and a non-blank name, the selected profile is rewritten in the list and the database with its original creation time; otherwise nothing changes |
| Maker.SubliminalMaker.ExportName | extracted/js/components/modules/SubliminalMaker.tsx:298-301 | the export button acts exactly when the selected id is listed, and names the file after that profile |
| Mantra.ResolvedTarget | extracted/js/components/modules/MantraSiddhi.tsx:141 | the start uses the custom count exactly when `Custom` is chosen, and the chosen preset otherwise |
| Mantra.StartRejection | extracted/js/components/modules/MantraSiddhi.tsx:136-145 | a start is refused for a blank mantra first, then for a target of 0 or less, and is accepted exactly when neither holds |
| Mantra.SessionName | extracted/js/components/modules/MantraSiddhi.tsx:149 | a non-blank name is kept trimmed; a blank one becomes "Mantra Session " and the date |
| Mantra.Edited | extracted/js/components/modules/MantraSiddhi.tsx:302-346 | each input changes only its own form field, and an unparsable custom count becomes 0 |
| Mantra.NewSession | extracted/js/components/modules/MantraSiddhi.tsx:147-159 | a new session has the fresh id, the start time, the resolved target, a count of 0, no log and no end time, is active, and carries the trimmed form fields |
| Mantra.StartedSessionIsOpen | extracted/js/components/modules/MantraSiddhi.tsx:136-159 | a session that passes the start checks is not complete yet: its count is below its target and its mantra is not blank |
| Mantra.FormOf | extracted/js/components/modules/MantraSiddhi.tsx:174-184 | loading fills the form with the session's own fields and target; the custom count becomes 100 unless the stored target is the `Custom` sentinel |
| Mantra.Incremented | extracted/js/components/modules/MantraSiddhi.tsx:211-212 | an increment appends one log entry from the channel and keeps every earlier entry |
| Mantra.Completed | extracted/js/components/modules/MantraSiddhi.tsx:99-104 | the ended record is inactive, holds the final count and the end time, and is otherwise the session itself |
| Mantra.Saved | extracted/js/components/modules/MantraSiddhi.tsx:115-126 | auto-save writes the form's fields, the resolved target and the current count onto the session, keeping its id, start time, log, state and end time |
| Mantra.LoadThenSaveKeepsSession | extracted/js/components/modules/MantraSiddhi.tsx:113-133 | a session with trimmed fields, a non-blank name and no empty optional fields comes back unchanged when it is loaded and auto-saved at once |
| Mantra.FrameSum | extracted/js/components/modules/MantraSiddhi.tsx:257-260 | the sum of a frame's bins is between 0 and 255 per bin |
| Mantra.AnalyserFrameOnset | extracted/js/components/modules/MantraSiddhi.tsx:244-266 | for the frame the handler builds, 256 entries of which only the first 128 bins are filled, a frame counts exactly when those bins average more than 60 and more than 500 ms have passed |
| Mantra.ZeroTailSum | extracted/js/components/modules/MantraSiddhi.tsx:257-260 | zero entries at the end of a frame add nothing to its sum |
| Mantra.OnsetInIntegers | extracted/js/components/modules/MantraSiddhi.tsx:261-266 | a frame counts exactly when its bins sum to more than 30 per bin and more than 500 ms have passed since the last count |
| Mantra.QuietFrameNeverCounts | extracted/js/components/modules/MantraSiddhi.tsx:257-266 | a frame whose bins are all 30 or quieter never counts |
| Mantra.QuietSum | extracted/js/components/modules/MantraSiddhi.tsx:257-260 | a frame whose bins are all 30 or quieter sums to at most 30 per bin |
| Mantra.WithSession | extracted/js/components/modules/MantraSiddhi.tsx:161 | a new session joins the list newest first, and every listed session stays |
| Mantra.ReplaceSessionKeeps | extracted/js/components/modules/MantraSiddhi.tsx:106 | rewriting a listed session with the same id and start time keeps the list ordered with the same sessions, and holds the new record |
| Mantra.RemoveSessionKeeps | extracted/js/components/modules/MantraSiddhi.tsx:197 | deleting keeps the list ordered, drops that id and keeps every other session |
| Mantra.OthersSurviveReplace | extracted/js/components/modules/MantraSiddhi.tsx:106 | rewriting one session keeps every session with another id |
| Mantra.SessionsShown | extracted/js/components/modules/MantraSiddhi.tsx:33-34 | the loaded sessions are newest first and show every stored session exactly once |
| Mantra.RestoredSession | extracted/js/components/modules/MantraSiddhi.tsx:37-40 | the resumed session is the listed one named by the last-active key, and only when it is still marked active; nothing is resumed otherwise |
| Mantra.MantraSiddhi.constructor | extracted/js/components/modules/MantraSiddhi.tsx:12-30 | the first render has an empty form with target 10008 and custom count 100, no active session, a count of 0, an empty list, no permission and no listening |
| Mantra.MantraSiddhi.LoadInitialData | extracted/js/components/modules/MantraSiddhi.tsx:32-59 | the sessions show their store newest first, the permission flag is the one stored in `localStorage`, and the remembered session is resumed when it is listed and active; a failing read changes nothing |
| Mantra.MantraSiddhi.Present | extracted/js/components/modules/MantraSiddhi.tsx:34-58 | shows the listing and the permission flag, and resumes the remembered session |
| Mantra.MantraSiddhi.Restore | extracted/js/components/modules/MantraSiddhi.tsx:37-58 | resumes the session the last-active key names when it is listed and active, and otherwise changes nothing |
| Mantra.MantraSiddhi.Show | extracted/js/components/modules/MantraSiddhi.tsx:34-35 | shows the listing newest first and the permission flag, and changes nothing else |
| Mantra.MantraSiddhi.Resume | extracted/js/components/modules/MantraSiddhi.tsx:43-56 | a listed session fills the form and becomes active with its own count |
| Mantra.MantraSiddhi.FormChanged | extracted/js/components/modules/MantraSiddhi.tsx:302-346 | an input changes only the form, as Edited says |
| Mantra.MantraSiddhi.StartNewSession | extracted/js/components/modules/MantraSiddhi.tsx:136-165 | a refused start changes nothing; otherwise the new session is stored, joins the list newest first, becomes active with a count of 0 and is remembered; a failed write changes nothing |
| Mantra.MantraSiddhi.Begin | extracted/js/components/modules/MantraSiddhi.tsx:160-164 | the stored session joins the list, becomes active with a count of 0 and is remembered |
| Mantra.MantraSiddhi.Activate | extracted/js/components/modules/MantraSiddhi.tsx:161-163 | the new session joins the list and becomes active with a count of 0 |
| Mantra.MantraSiddhi.EndSession | extracted/js/components/modules/MantraSiddhi.tsx:93-110 | with no active session nothing happens; otherwise voice detection stops and the session is stored as ended with the given or current count and the end time, replaced in the list, made inactive, and forgotten |
| Mantra.MantraSiddhi.Close | extracted/js/components/modules/MantraSiddhi.tsx:105-109 | the ended record replaces the session in the list, nothing is active, the count is 0 and the key is forgotten |
| Mantra.MantraSiddhi.Retire | extracted/js/components/modules/MantraSiddhi.tsx:106-108 | the ended record replaces the session in the list, nothing is active and the count is 0 |
| Mantra.MantraSiddhi.IncrementCounter | extracted/js/components/modules/MantraSiddhi.tsx:206-224 | with no active session nothing happens; otherwise one log entry is appended and the count rises by one, and reaching the target ends the session with that count |
| Mantra.MantraSiddhi.Tally | extracted/js/components/modules/MantraSiddhi.tsx:211-221 | the increment of an active session, ending it when the new count reaches the target |
| Mantra.MantraSiddhi.Count | extracted/js/components/modules/MantraSiddhi.tsx:211-215 | one more repetition, logged from the channel |
| Mantra.MantraSiddhi.IncrementCounterAsWritten | extracted/js/components/modules/MantraSiddhi.tsx:206-224 | the tap as the code runs it, followed by its commit's auto-save; form, permission flag and last onset stay as they were. Below the target the count and log rise and the auto-saved record is stored and listed. At the target, when the database opens, the ended record built from the session before the tap is written first and the auto-saved, still active record last, while the list ends with the ended record and nothing is active. When it cannot open, nothing is stored, voice detection is off, and the session is still active with the new count and log, rewritten in the list by the auto-save |
| Mantra.MantraSiddhi.CompleteAsWritten | extracted/js/components/modules/MantraSiddhi.tsx:93-133 | the completing tap in both store cases, with form, permission flag and last onset unchanged: the stale `endSession`'s write, the increment and the auto-save write, then the rest of `endSession`; or, when the database cannot open, the increment and the auto-save's list rewrite with nothing stored |
| Mantra.MantraSiddhi.CountAndSave | extracted/js/components/modules/MantraSiddhi.tsx:113-133 | an increment followed by the auto-save of the updated session, in the list and in the database |
| Mantra.MantraSiddhi.CompleteOpen | extracted/js/components/modules/MantraSiddhi.tsx:93-133 | the completing tap when the database opens: the ended record from the session before the tap is stored first and the active auto-saved record last; the list ends with the ended record and nothing is active |
| Mantra.MantraSiddhi.CompleteClosed | extracted/js/components/modules/MantraSiddhi.tsx:93-133 | the completing tap when the database cannot open: nothing is stored, voice detection is off, and the session stays active with the new count and log, rewritten in the list |
| Mantra.MantraSiddhi.SaveThenClose | extracted/js/components/modules/MantraSiddhi.tsx:106-133 | once the ended record is written: the auto-saved updated session is written and listed, then the ended record replaces it in the list, nothing is active, the count is 0 and the key is forgotten; form, permission flag and last onset stay as they were |
| Mantra.MantraSiddhi.IssueEnd | extracted/js/components/modules/MantraSiddhi.tsx:94-105 | `endSession` up to its `await`: voice detection stops and the ended record is written exactly when the database opens |
| Mantra.CompletionLeftActive | extracted/js/components/modules/MantraSiddhi.tsx:93-133 | after the completing tap as written, the session stored under its id is still active, keeps its earlier end time and holds the final log entry, while the ended record lacks that entry |
| Mantra.CompletionStoredEnded | extracted/js/components/modules/MantraSiddhi.tsx:206-224 | when the updated session is ended, the stored session is inactive, ended at that time with the final count, and holds every log entry |
| Mantra.MantraSiddhi.LoadSession | extracted/js/components/modules/MantraSiddhi.tsx:167-191 | an unknown id changes nothing; loading another session ends the active one first; the loaded session becomes active with its own count, fills the form and is remembered |
| Mantra.MantraSiddhi.Reopen | extracted/js/components/modules/MantraSiddhi.tsx:174-189 | a listed session fills the form, becomes active and is remembered |
| Mantra.MantraSiddhi.DeleteSession | extracted/js/components/modules/MantraSiddhi.tsx:194-204 | without confirmation nothing changes; otherwise the record and its list entry go, and deleting the active session also clears it, resets the count and forgets the key |
| Mantra.MantraSiddhi.Drop | extracted/js/components/modules/MantraSiddhi.tsx:197-202 | drops the session from the list, and clears the active session only when it was the deleted one |
| Mantra.MantraSiddhi.AutoSave | extracted/js/components/modules/MantraSiddhi.tsx:112-133 | while a session is active, its form fields, target and count are written to the list and the database, and the active session itself is kept as it is |
| Mantra.MantraSiddhi.Rewrite | extracted/js/components/modules/MantraSiddhi.tsx:127-128 | the saved record replaces the session in the list |
| Mantra.MantraSiddhi.RequestMic | extracted/js/components/modules/MantraSiddhi.tsx:226-229 | the prompt's answer becomes the permission flag on screen and in `localStorage`, where it then reads back as given |
| Mantra.MantraSiddhi.StartVoiceDetection | extracted/js/components/modules/MantraSiddhi.tsx:231-280 | without permission nothing changes; otherwise the microphone is captured, or a failed capture clears the permission flag |
| Mantra.MantraSiddhi.StopVoiceDetection | extracted/js/components/modules/MantraSiddhi.tsx:73-89 | listening stops |
| Mantra.MantraSiddhi.FrameEnergy | extracted/js/components/modules/MantraSiddhi.tsx:257-260 | the loop sums the frame's bins |
| Mantra.MantraSiddhi.OnAudioProcess | extracted/js/components/modules/MantraSiddhi.tsx:252-270 | a frame that passes the onset rule counts one voice repetition and becomes the last onset; any other frame changes nothing |
| Radionics.Resonance | extracted/js/components/modules/RadionicsSimulator.tsx:64-69 | the resonance is the mean of the six dials rounded half up (within 3/6 of the true mean), and lies in 0..100 when every dial does |
| Radionics.DefaultResonance | extracted/js/components/modules/RadionicsSimulator.tsx:24-27 | the default dials give a resonance of 50 |
| Radionics.Regenerated | extracted/js/components/modules/RadionicsSimulator.tsx:57-59 | one regeneration tick never passes the 1000 cap, never lowers an in-range pool, and adds exactly 0.5 below the cap |
| Radionics.EmissionCost | extracted/js/components/modules/RadionicsSimulator.tsx:21 | an emission at an in-range resonance costs between 0 and 10 energy |
| Radionics.Drained | extracted/js/components/modules/RadionicsSimulator.tsx:115 | paying a cost never leaves the pool negative or larger, and subtracts the cost exactly when the pool covers it |
| Radionics.AffordableEmission | extracted/js/components/modules/RadionicsSimulator.tsx:107-115 | an emission that passes the energy guard is paid in full, without clipping at zero, and costs at most 10 energy |
| Radionics.WitnessSummary | extracted/js/components/modules/RadionicsSimulator.tsx:122 | a log's witness text is "No witness", "Text: " plus the first 30 characters and "...", or "Image: " plus the file name ("Untitled" when it is missing or empty) |
| Radionics.PresetsShown | extracted/js/components/modules/RadionicsSimulator.tsx:36-38 | the loaded presets are newest first and show every stored preset exactly once |
| Radionics.LogsShown | extracted/js/components/modules/RadionicsSimulator.tsx:37-39 | the loaded emission logs are newest first and show every stored log exactly once |
| Radionics.RadionicsSimulator.constructor | extracted/js/components/modules/RadionicsSimulator.tsx:24-33 | the first render has the default dials, no witness, a full pool of 1000, a resonance of 50, empty lists and no selection |
| Radionics.RadionicsSimulator.LoadInitialData | extracted/js/components/modules/RadionicsSimulator.tsx:35-52 | both lists show their stores newest first; the preset named by the last-active key is restored when it is listed; a failing read changes nothing |
| Radionics.RadionicsSimulator.Show | extracted/js/components/modules/RadionicsSimulator.tsx:36-39 | shows both listings sorted newest first and changes nothing else |
| Radionics.RadionicsSimulator.Apply | extracted/js/components/modules/RadionicsSimulator.tsx:45-50 | a listed preset's dials (and so the resonance), witness, id and name become current, and nothing else changes |
| Radionics.RadionicsSimulator.Regenerate | extracted/js/components/modules/RadionicsSimulator.tsx:57-59 | one tick changes only the pool, to its regenerated value |
| Radionics.RadionicsSimulator.RateChanged | extracted/js/components/modules/RadionicsSimulator.tsx:87-89 | only the named dial changes, the resonance follows it, and in-range dials stay in range |
| Radionics.RadionicsSimulator.WitnessFileChanged | extracted/js/components/modules/RadionicsSimulator.tsx:91-97 | a readable file becomes an image witness named after the file; no file, or an unreadable one, changes nothing |
| Radionics.RadionicsSimulator.WitnessTextChanged | extracted/js/components/modules/RadionicsSimulator.tsx:99-101 | the typed text replaces any witness, and nothing else changes |
| Radionics.RadionicsSimulator.Recharge | extracted/js/components/modules/RadionicsSimulator.tsx:103-105 | the pool is refilled to 1000, and nothing else changes |
| Radionics.RadionicsSimulator.Emit | extracted/js/components/modules/RadionicsSimulator.tsx:107-132 | an unaffordable emission changes nothing; otherwise the pool pays the cost and the emission starts; once the log is stored it goes to the front of the list; a failed store adds no log and sets no timer |
| Radionics.RadionicsSimulator.EmissionFinished | extracted/js/components/modules/RadionicsSimulator.tsx:129-131 | the timer only ends the emission |
| Radionics.RadionicsSimulator.PresetNameChanged | extracted/js/components/modules/RadionicsSimulator.tsx:31 | the name field changes only the preset name |
| Radionics.RadionicsSimulator.SavePreset | extracted/js/components/modules/RadionicsSimulator.tsx:134-150 | a blank name changes nothing; otherwise the trimmed-name preset is stored, joins the list newest first, becomes the selection and is remembered as last active |
| Radionics.RadionicsSimulator.Select | extracted/js/components/modules/RadionicsSimulator.tsx:147-149 | the saved preset joins the list newest first, is selected and is remembered |
| Radionics.RadionicsSimulator.LoadPreset | extracted/js/components/modules/RadionicsSimulator.tsx:152-161 | a listed id makes that preset current and is remembered; an unknown id changes nothing |
| Radionics.RadionicsSimulator.DeletePreset | extracted/js/components/modules/RadionicsSimulator.tsx:163-175 | without confirmation nothing changes; otherwise the record and its list entry go, and deleting the selected preset also resets the dials, drops the witness, clears the selection and forgets the key |
| Radionics.RadionicsSimulator.Forget | extracted/js/components/modules/RadionicsSimulator.tsx:166-173 | drops the preset from the list, and resets the selection only when it was the deleted one |
| Radionics.RadionicsSimulator.AutoSave | extracted/js/components/modules/RadionicsSimulator.tsx:71-85 | with a selection and a non-blank name, the selected preset is rewritten in the list and the database with the trimmed name, the current dials and witness and its original creation time; otherwise nothing changes |
| Presets.WithNew | extracted/js/components/modules/RadionicsSimulator.tsx:147 | adding a preset with a new id keeps the list newest first, adds exactly that preset and only its id |
| Presets.UniqueAfterInsert | extracted/js/components/modules/RadionicsSimulator.tsx:139-147 | a preset with a fresh id keeps the ids of the list unique |
| Presets.NewestGoesFirst | extracted/js/components/modules/RadionicsSimulator.tsx:144-147 | a preset created no earlier than every listed one goes to the front, and the others keep their places |
| Presets.AutoSaved | extracted/js/components/modules/RadionicsSimulator.tsx:73-81 | the auto-saved record has the selected id, the trimmed name, the current payload, and the creation time of the listed preset with that id (`Date.now()` when there is none) |
| Presets.AutoSavedKeepsCreatedAt | extracted/js/components/modules/RadionicsSimulator.tsx:80 | with unique ids, auto-save keeps the creation time of the preset it rewrites |
| Presets.ReplacedKeepsOrder | extracted/js/components/modules/RadionicsSimulator.tsx:83 | rewriting one preset with the same id and creation time keeps the ids and the order, and a second rewrite changes nothing |
| Presets.AutoSaveStable | extracted/js/components/modules/RadionicsSimulator.tsx:72-85 | auto-save keeps the list newest first with the same ids, and a re-run on the list it produced (the list is one of the effect's dependencies) writes the same record and yields an equal list |
| Presets.AutoSaveKeepsIds | extracted/js/components/modules/RadionicsSimulator.tsx:72-85 | auto-save of a listed id keeps the list newest first with the same ids |
| Presets.RemoveKeepsOrder | extracted/js/components/modules/RadionicsSimulator.tsx:166 | deleting keeps the list newest first, drops that id and keeps every other id |
| Presets.LoadedFromListing | extracted/js/components/modules/RadionicsSimulator.tsx:36-38 | loading shows every stored preset exactly once, newest first |
| Presets.Restored | extracted/js/components/modules/RadionicsSimulator.tsx:42-51 | the restored preset is the listed one named by the last-active key; nothing is restored when the key is missing or empty or names no listed preset |
| Lists.Insert | extracted/js/components/modules/RadionicsSimulator.tsx:147 | inserting one element keeps everything else and adds it once |
| Lists.HeadIsNewest | extracted/js/components/modules/RadionicsSimulator.tsx:38 | in a list sorted newest first, no element is newer than the head |
| Lists.InsertSorted | extracted/js/components/modules/RadionicsSimulator.tsx:147 | inserting into a list sorted newest first keeps it sorted |
| Lists.SortDesc | extracted/js/components/modules/RadionicsSimulator.tsx:38 | `sort((a, b) => b.createdAt - a.createdAt)` is a permutation of its input |
| Lists.SortDescSorted | extracted/js/components/modules/RadionicsSimulator.tsx:38 | the sort's result is newest first |
| Lists.SortSortedIsIdentity | extracted/js/components/modules/RadionicsSimulator.tsx:147 | re-sorting a list that is already newest first leaves it unchanged, ties included |
| Lists.PrependNewest | extracted/js/components/modules/RadionicsSimulator.tsx:147 | prepending an element no older than every other one and sorting leaves it at the front and the rest in place |
| Lists.Find | extracted/js/components/modules/RadionicsSimulator.tsx:153 | `find` returns the first element with the id, and finds nothing exactly when no element has it |
| Lists.FindUnique | extracted/js/components/modules/RadionicsSimulator.tsx:74 | with unique ids, `find` returns the one element with that id |
| Lists.ReplaceById | extracted/js/components/modules/RadionicsSimulator.tsx:83 | the `map` replaces exactly the elements with the id and keeps the rest in place |
| Lists.ReplaceKeepsOrder | extracted/js/components/modules/RadionicsSimulator.tsx:83 | replacing by an element with the same id and creation time keeps the order, and replacing twice is replacing once |
| Lists.Filter | extracted/js/components/modules/RadionicsSimulator.tsx:166 | `filter` keeps exactly the elements that pass, and nothing else |
| Lists.FilterAppend | extracted/js/components/modules/RadionicsSimulator.tsx:166 | filtering a list with one more element at its end filters the list and then keeps or drops that element |
| Lists.FilterAll | extracted/js/components/modules/RadionicsSimulator.tsx:166 | a filter that keeps every element returns the list itself |
| Lists.FilterKeepsSorted | extracted/js/components/modules/RadionicsSimulator.tsx:166 | filtering keeps a list newest first |
| Lists.CountOfDistinct | extracted/js/components/modules/RadionicsSimulator.tsx:166 | in a list with distinct ids, every element occurs once |
| Lists.PermutationKeepsDistinct | extracted/js/components/modules/RadionicsSimulator.tsx:38 | sorting does not create duplicate ids |
| Lists.PrependKeepsDistinct | extracted/js/components/modules/RadionicsSimulator.tsx:126 | putting an element with a new id in front keeps the ids distinct |
| Lists.FilterKeepsDistinct | extracted/js/components/modules/RadionicsSimulator.tsx:166 | filtering keeps the ids distinct |
| Storage.PutRecord | extracted/js/services/storageService.ts:162-169 | `put` keeps the set of object stores |
| Storage.AddRecord | extracted/js/services/storageService.ts:153-160 | `add` fails exactly when the id is already stored, and otherwise acts as `put` |
| Storage.DeleteRecord | extracted/js/services/storageService.ts:171-178 | `delete` keeps the set of object stores |
| Storage.Upgrade | extracted/js/services/storageService.ts:41-48 | the upgrade leaves every store present, keeps each existing store as it was, creates each missing one empty, and keeps the database well formed |
| Storage.PutThenGet | extracted/js/services/storageService.ts:144-169 | after `put(s, r)`, `get(s, r.id)` returns `r` and every other (store, id) reads as before |
| Storage.DeleteThenGet | extracted/js/services/storageService.ts:144-178 | after `delete(s, x)`, `get(s, x)` is undefined and every other (store, id) reads as before |
| Storage.PutKeepsWellFormed | extracted/js/services/storageService.ts:162-169 | writing a record of the store's own schema type keeps every record under its own `id` keyPath |
| Storage.DeleteKeepsWellFormed | extracted/js/services/storageService.ts:171-178 | deleting keeps every record under its own `id` keyPath |
| Storage.ListRecords | extracted/js/services/storageService.ts:135-142 | `store.getAll()` lists every stored record exactly once, and nothing else |
| Storage.Collect | extracted/js/services/storageService.ts:183-225 | the typed helpers return one value per record of the right type, in listing order, and nothing else |
| Storage.CollectFromListing | extracted/js/services/storageService.ts:183-225 | a typed listing has no id twice, each element is the record stored under its id, and every stored id appears |
| Storage.PickedListing | extracted/js/services/storageService.ts:183-225 | the typed list has one element per listed record, each with that record's id and equal to what is stored under it |
| Storage.SortedListing | extracted/js/services/storageService.ts:183-225 | a typed listing sorted newest first is ordered and still shows every stored record exactly once |
| Storage.SettingsOrDefault | extracted/js/services/storageService.ts:196-200 | a missing singleton reads as `DEFAULT_AMPLIFIER_SETTINGS`, and a stored one reads as its own fields |
| Storage.SingletonRoundTrip | extracted/js/services/storageService.ts:196-203 | reading the amplifier settings right after saving them returns what was saved, whatever was stored before |
| Storage.ReadFlag | extracted/js/services/storageService.ts:92-100 | a flag reads true if and only if the stored string is exactly `'true'`, so a missing key reads as false |
| Storage.FlagRoundTrip | extracted/js/services/storageService.ts:102-108 | a flag written with `String(b)` reads back as `b` |
| Storage.DropLegacy | extracted/js/services/storageService.ts:74-76 | the legacy `acknowledgedDisclaimer` field is removed from an object; the `in` test throws exactly on a truthy primitive; other values pass through unchanged |
| Storage.AppSettingsFrom | extracted/js/services/storageService.ts:69-82 | a missing, empty or unparsable item gives `DEFAULT_APP_SETTINGS`; a parsed object is returned without `acknowledgedDisclaimer`; the result never carries that field |
| Storage.AppSettingsRoundTrip | extracted/js/services/storageService.ts:69-90 | settings saved by `saveAppSettings` read back unchanged when `JSON.parse` inverts `JSON.stringify` on them |
| Storage.Header | extracted/js/services/storageService.ts:281-282 | `split(',')[0]` is the longest comma-free prefix of the URL |
| Storage.AtobArgument | extracted/js/services/storageService.ts:281-284 | `split(',')[1]` is the text after the first comma up to the next comma or the end, or `"undefined"` when the URL has no comma |
| Storage.SemicolonAfter | extracted/js/services/storageService.ts:282 | finds the first `;` from a position on, with no `;` and no line terminator before it; None only when every later `;` is preceded by a line terminator |
| Storage.MimeMatch | extracted/js/services/storageService.ts:282 | `/:(.*?);/` captures the text after the leftmost `:` that a `;` follows with no line terminator between, up to that first `;`; None only when no `:` ... `;` pair is free of line terminators |
| Storage.BlobType | extracted/js/services/storageService.ts:290 | the blob keeps a printable-ASCII type in lower case and drops any other type to the empty string |
| Storage.LocalStorage.constructor | extracted/js/services/storageService.ts:71 | storage starts with the given items and availability |
| Storage.LocalStorage.GetItem | extracted/js/services/storageService.ts:94 | `getItem` finds a value exactly when storage is available and holds the key, and that value is the stored one |
| Storage.LocalStorage.SetItem | extracted/js/services/storageService.ts:104 | `setItem` stores the value under the key when storage is available, and otherwise the write is lost |
| Storage.LocalStorage.RemoveItem | extracted/js/services/storageService.ts:94-104 | `removeItem` deletes the key, which then reads as missing |
| Storage.StorageService.constructor | extracted/js/services/storageService.ts:23-30 | the service starts with no open handle over the database found on the device |
| Storage.StorageService.OpenStores | extracted/js/services/storageService.ts:32-60 | once the database can be opened, all eight stores exist and every record sits under its own id |
| Storage.StorageService.InitIndexedDB | extracted/js/services/storageService.ts:32-60 | an open handle is reused unchanged; otherwise opening succeeds exactly when the engine exists and the device's version is not newer, upgrading older data; on failure nothing changes |
| Storage.StorageService.GetAll | extracted/js/services/storageService.ts:135-142 | succeeds exactly when the database opens, and then lists each record of the store exactly once |
| Storage.StorageService.Get | extracted/js/services/storageService.ts:144-151 | succeeds exactly when the database opens, and then returns the record under the id or undefined |
| Storage.StorageService.Put | extracted/js/services/storageService.ts:162-169 | succeeds exactly when the database opens, and then the store holds the record under its id |
| Storage.StorageService.Add | extracted/js/services/storageService.ts:153-160 | succeeds exactly when the database opens and the id is new; a rejected add changes no store |
| Storage.StorageService.Delete | extracted/js/services/storageService.ts:171-178 | succeeds exactly when the database opens, and then removes just that id |
| Storage.StorageService.GetAmplifierSettings | extracted/js/services/storageService.ts:196-200 | returns the singleton record's settings, or the defaults when none is stored |
| Storage.StorageService.SaveAmplifierSettings | extracted/js/services/storageService.ts:201-203 | writes the settings at id `'singleton'`, so a later read returns them |
| Storage.StorageService.SetMicPermissionGranted | extracted/js/services/storageService.ts:102-108 | stores `String(granted)` under the microphone key, and `getMicPermissionGranted` then returns `granted` |
| Storage.StorageService.SetWelcomeMessageShown | extracted/js/services/storageService.ts:120-126 | stores `String(shown)` under the welcome key, and `getWelcomeMessageShown` then returns `shown` |
| Storage.StorageService.SaveAppSettings | extracted/js/services/storageService.ts:84-90 | stores the serialised settings under the app-settings key |
| Storage.StorageService.DataUrlToBlob | extracted/js/services/storageService.ts:280-291 | fails exactly when `atob` throws on the second comma field; otherwise the blob has one byte per decoded character (its code unit modulo 256) and the type captured from the header, or `application/octet-stream` |

## Left out

- Rendering: JSX, styling, canvas drawing, random animation grids and the HUD clock are not modelled. They are presentation only.
- The Web Audio graph is not modelled: `AudioContext`, analysers, oscillators, script processors and media elements. Only the onset rule applied to an analyser frame and the amplifier's level cap are kept. These are device APIs.
- Microphone capture (`getUserMedia`) is not modelled, and neither is the prompt inside `requestMicrophonePermission` (`permissionsService.ts:6-26`) or its alerts. Capture success and the prompt's answer are parameters; storing that answer as the flag is modelled.
- IndexedDB request and transaction callbacks are not modelled. The engine is a map from store to a map from id to record. Whether it can be opened is a property of the device state.
- The Cache API methods of `StorageService` (`cacheFile`, `getCachedFile`, `deleteCachedFile`) are not modelled. No module calls them; the one call site is commented out.
- `fileToDataUrl` (a `FileReader` read) is not modelled; a picked file carries its data URL.
- `atob` is a parameter, so base64 decoding itself is not modelled.
- `service-worker.ts` and both `capacitor.config.ts` files are not part of this model. They are network caching and build configuration.
- The presentational components (`Panel`, `Button`, `Modal`, `HUDOverlay`, `Loader`, `WelcomeModal`, `EnergyBar`) and the welcome text are not part of this model.
- Timers (`setInterval`, `setTimeout`) are not modelled as timers. Each tick or timeout is a method the environment calls.
- React scheduling is not modelled beyond two places: the order of the amplifier's two mount effects, and the tap that completes a mantra session (`Mantra.MantraSiddhi.IncrementCounterAsWritten`). Elsewhere batching and stale closures are out, and each handler sees the current state.
- Floating point is not modelled: reals are exact. `parseFloat(x.toFixed(2))` is rounding half up to two decimals.
- Strings are sequences of Unicode scalar values, not UTF-16 code units. The 30-character witness excerpt counts characters. Case mapping (`toUpperCase`, the blob type's lower-casing) covers ASCII only.
- Dial: the effect that adds and removes the window listeners is not modelled (`Dial.tsx:79-98`). The mouse handlers are the same methods as `startDrag`, `onDrag` and `stopDrag`. `onChange` is the value `Drag` returns.
- Dial.Angle: when `max === min` the code divides by zero and produces NaN or an infinity. The model gives None there.
- App.NavLabelRadionics: the labels are proved concretely for Radionics, Subliminal Amplifier and Settings. The others follow from the general `TwoWordNavLabel` and `OneWordNavLabel`.
- Mantra.MantraSiddhi.StartVoiceDetection: does not model the audio graph it builds. Only the listening and permission state it leaves is modelled.
- Mantra: the progress display and the session list rendering are not modelled.
- Radionics.RadionicsSimulator.Emit: if storing the log fails, the pool has already paid the cost and the emission flag stays on. No timer is started to clear it. This is the code's behaviour, kept as is.
- Presets.AutoSaveStable: array identity is not modelled, and React compares effect dependencies by identity. Each auto-save effect rewrites its list with `prev.map`, which always makes a new array, and that list is one of the effect's own dependencies. The lines are `RadionicsSimulator.tsx:83-85`, `QuantumHealing.tsx:62-64`, `FrequencyGenerator.tsx:52-54` and `SubliminalMaker.tsx:56-58`. So while a named preset is selected, the effect runs again after every commit and writes the same record to IndexedDB without end. The lemma shows only that each re-run writes the same record and yields an equal list.
- Mantra.MantraSiddhi.OnAudioProcess: accepts a frame of any length. In the code the frame has `fftSize` (256) entries, of which `getByteFrequencyData` fills only the first 128 (`MantraSiddhi.tsx:244`, `254-255`). `Mantra.AnalyserFrameOnset` states the rule for that frame: the filled bins must average more than 60.
- Storage.ListRecords: `getAll` returns records in key order, but the model leaves the order open. So the order of the unsorted track lists (`Amplifier.TracksShown`, `Maker.TracksShown`) is not determined, and neither is the order of presets or sessions with equal timestamps after the newest-first sort.

Behaviour of the code that the model keeps as written:

- Mantra.Completed: `endSession` sets `completedAt` on every end, whether or not the target was reached (`MantraSiddhi.tsx:99-104`).
- Mantra.MantraSiddhi.IncrementCounter: an increment changes only the session and the count in memory (`MantraSiddhi.tsx:211-221`). The database receives the new count through the auto-save effect (`MantraSiddhi.tsx:113-133`). This member is the corrected completion of the Findings row. As the code runs it, the tap that reaches the target ends the session through the `endSession` of the render before the tap (`MantraSiddhi.tsx:93-104`). So the ended record lacks the final log entry. The auto-save write of the following commit lands after it, so the database keeps the session active with no new end time. `Mantra.MantraSiddhi.IncrementCounterAsWritten` models that.
- Mantra.MantraSiddhi.LoadSession: loading re-activates any session, including a completed one, and counting resumes from its stored count (`MantraSiddhi.tsx:185-189`).

## Findings

| source | as written | input that shows it | evidently intended | confidence | as-written member | corrected member |
|---|---|---|---|---|---|---|
| extracted/js/components/modules/SubliminalAmplifier.tsx:32-39 | on mount the persist effect writes the initial `DEFAULT_AMPLIFIER_SETTINGS` while the load effect is still awaiting the track listing, so the write comes before the settings are read | a visit after the two sliders were saved at values other than the default 50 and 50: the defaults overwrite them before the read, so the defaults are shown and kept | the stored settings are read first and shown, and only later changes are written | not executed | Amplifier.SubliminalAmplifier.MountAsWritten, Amplifier.StoredSettingsLost | Amplifier.SubliminalAmplifier.MountCorrected |
| extracted/js/components/modules/MantraSiddhi.tsx:206-224 | the tap that reaches the target ends the session through the `endSession` of the render before the tap, so the ended record is built from the session without the tap's log entry (lines 93-104); that write is issued first, and the auto-save effect of the commit that follows (lines 113-133) writes the updated session, still active, in a later transaction | any active session one repetition short of its target, then a tap: the list shows the ended record without the last log entry, and the database keeps the session active with the final count and no new end time | the completed session is stored and listed as ended, with the final count, the end time and every log entry | not executed | Mantra.MantraSiddhi.IncrementCounterAsWritten, Mantra.CompletionLeftActive | Mantra.MantraSiddhi.IncrementCounter, Mantra.CompletionStoredEnded |
