/** The frequency generator: a frequency, an emission intensity and a
    waveform, an emitting flag, and a list of named presets holding those
    three settings, with auto-save of the selected one. */
module Frequency {
  import opened Common
  import opened Types
  import opened Constants
  import opened Lists
  import opened Presets
  import opened Storage

  const LastActiveKey: string := "frequencyGenLastActivePresetId"

  datatype Snapshot = Snapshot(
    frequency: int,
    emissionIntensity: int,
    waveformType: Waveform,
    frequencyPresets: seq<FrequencyPreset>,
    selectedPresetId: string,
    presetName: string,
    isEmitting: bool)

  /** The three settings a snapshot would save. */
  function PayloadOf(s: Snapshot): FrequencyPayload {
    FrequencyPayload(s.frequency, s.emissionIntensity, s.waveformType)
  }

  /** What `loadPreset` sets: the preset's name and settings, and its id as
      the selection; the list and the emitting flag stay. */
  function Loading(s: Snapshot, p: FrequencyPreset): (r: Snapshot)
    ensures r.frequencyPresets == s.frequencyPresets && r.isEmitting == s.isEmitting
    ensures PayloadOf(r) == p.payload && r.selectedPresetId == p.id && r.presetName == p.name
  {
    s.(presetName := p.name, frequency := p.payload.frequencyHz,
       emissionIntensity := p.payload.emissionIntensity,
       waveformType := p.payload.waveformType, selectedPresetId := p.id)
  }

  /** What deleting the selected preset resets: no name, the default
      settings, no selection. */
  function Cleared(s: Snapshot): (r: Snapshot)
    ensures PayloadOf(r) == DefaultFrequency && r.presetName == "" && r.selectedPresetId == ""
    ensures r.frequencyPresets == s.frequencyPresets && r.isEmitting == s.isEmitting
  {
    s.(presetName := "", frequency := DefaultFrequency.frequencyHz,
       emissionIntensity := DefaultFrequency.emissionIntensity,
       waveformType := DefaultFrequency.waveformType, selectedPresetId := "")
  }

  lemma PresetsShown(recs: seq<Record>, db: Db)
    requires WellFormed(db) && FrequencyPresets in db && IsListing(recs, db[FrequencyPresets])
    ensures WellOrdered(Loaded(recs, AsFrequencyPreset))
    ensures Shows(Loaded(recs, AsFrequencyPreset), db[FrequencyPresets], AsFrequencyPreset, IdOf)
  {
    var m := db[FrequencyPresets];
    assert forall k :: k in m ==> AsFrequencyPreset(m[k]).Some? && IdOf(AsFrequencyPreset(m[k]).value) == k;
    LoadedFromListing(recs, m, AsFrequencyPreset);
  }

  class FrequencyGenerator {
    var frequency: int
    var emissionIntensity: int
    var waveformType: Waveform
    var frequencyPresets: seq<FrequencyPreset>
    var selectedPresetId: string
    var presetName: string
    var isEmitting: bool
    const svc: StorageService

    function State(): Snapshot
      reads this
    {
      Snapshot(frequency, emissionIntensity, waveformType, frequencyPresets, selectedPresetId, presetName, isEmitting)
    }

    /** The presets are newest first with unique ids and the selection is
        empty or listed. */
    ghost predicate Valid()
      reads this, svc
    {
      && svc.Valid()
      && WellOrdered(frequencyPresets)
      && (selectedPresetId == "" || HasId(frequencyPresets, selectedPresetId))
    }

    constructor (svc: StorageService)
      requires svc.Valid()
      ensures Valid() && this.svc == svc
      ensures State() == Snapshot(432, 50, Sine, [], "", "", false)
    {
      frequency := DefaultFrequency.frequencyHz;
      emissionIntensity := DefaultFrequency.emissionIntensity;
      waveformType := DefaultFrequency.waveformType;
      frequencyPresets := [];
      selectedPresetId := "";
      presetName := "";
      isEmitting := false;
      this.svc := svc;
    }

    /** `loadInitialData`: the presets come from the database newest first;
        the preset named by the "last active" key, if listed, is loaded (and
        the key written again). A failing read changes nothing. */
    method LoadInitialData()
      requires Valid() && selectedPresetId == ""
      modifies this, svc, svc.ls
      ensures Valid()
      ensures !old(svc.CanOpen()) ==> unchanged(this) && unchanged(svc) && unchanged(svc.ls)
      ensures old(svc.CanOpen()) ==>
        && svc.isOpen && svc.stores == old(svc.OpenStores())
        && Shows(frequencyPresets, svc.stores[FrequencyPresets], AsFrequencyPreset, IdOf)
      ensures old(svc.CanOpen()) ==>
        match Restored(frequencyPresets, old(svc.ls.GetItem(LastActiveKey)))
        case None =>
          State() == old(State()).(frequencyPresets := frequencyPresets) && unchanged(svc.ls)
        case Some(p) =>
          && State() == Loading(old(State()).(frequencyPresets := frequencyPresets), p)
          && svc.ls.items == (if svc.ls.available then old(svc.ls.items)[LastActiveKey := p.id] else old(svc.ls.items))
    {
      var saved := svc.GetAll(FrequencyPresets);
      if saved.None? {
        return;
      }
      Show(saved.value);
      Restore();
    }

    /** Loads the preset the "last active" key names, if it is listed. */
    method Restore()
      requires Valid()
      modifies this, svc.ls
      ensures Valid()
      ensures match Restored(frequencyPresets, old(svc.ls.GetItem(LastActiveKey)))
        case None => unchanged(this) && unchanged(svc.ls)
        case Some(p) =>
          && State() == Loading(old(State()), p)
          && svc.ls.items == (if svc.ls.available then old(svc.ls.items)[LastActiveKey := p.id] else old(svc.ls.items))
    {
      var restored := Restored(frequencyPresets, svc.ls.GetItem(LastActiveKey));
      if restored.Some? {
        Apply(restored.value);
      }
    }

    method Show(recs: seq<Record>)
      requires Valid() && selectedPresetId == "" && HasAllStores(svc.stores)
      requires IsListing(recs, svc.stores[FrequencyPresets])
      modifies this
      ensures Valid()
      ensures State() == old(State()).(frequencyPresets := frequencyPresets)
      ensures Shows(frequencyPresets, svc.stores[FrequencyPresets], AsFrequencyPreset, IdOf)
    {
      PresetsShown(recs, svc.stores);
      frequencyPresets := Loaded(recs, AsFrequencyPreset);
    }

    /** `loadPreset`: a listed preset's name and settings become current, it
        is selected and remembered. */
    method Apply(p: FrequencyPreset)
      requires Valid() && p in frequencyPresets
      modifies this, svc.ls
      ensures Valid()
      ensures State() == Loading(old(State()), p)
      ensures svc.ls.items == (if svc.ls.available then old(svc.ls.items)[LastActiveKey := p.id] else old(svc.ls.items))
    {
      presetName := p.name;
      frequency := p.payload.frequencyHz;
      emissionIntensity := p.payload.emissionIntensity;
      waveformType := p.payload.waveformType;
      selectedPresetId := p.id;
      svc.ls.SetItem(LastActiveKey, p.id);
    }

    /** The frequency slider (1 to 1000 Hz); the value is the slider's integer. */
    method FrequencyChanged(hz: int)
      requires Valid()
      modifies this
      ensures Valid()
      ensures State() == old(State()).(frequency := hz)
    {
      frequency := hz;
    }

    /** The intensity slider (0 to 100). */
    method IntensityChanged(v: int)
      requires Valid()
      modifies this
      ensures Valid()
      ensures State() == old(State()).(emissionIntensity := v)
    {
      emissionIntensity := v;
    }

    method WaveformChanged(w: Waveform)
      requires Valid()
      modifies this
      ensures Valid()
      ensures State() == old(State()).(waveformType := w)
    {
      waveformType := w;
    }

    /** `handleToggleEmission`: flips emitting and touches nothing else, so
        two toggles restore the state. */
    method ToggleEmission()
      requires Valid()
      modifies this
      ensures Valid()
      ensures isEmitting == !old(isEmitting)
      ensures State() == old(State()).(isEmitting := !old(isEmitting))
    {
      isEmitting := !isEmitting;
    }

    method PresetNameChanged(name: string)
      requires Valid()
      modifies this
      ensures Valid()
      ensures State() == old(State()).(presetName := name)
    {
      presetName := name;
    }

    /** `handleSavePreset`: a blank name is refused; otherwise the current
        settings are written under a fresh id, the preset joins the list
        newest first, is selected and remembered. A failing write stops the
        handler before the list changes. */
    method SavePreset(id: string, now: int)
      requires Valid()
      requires GetRecord(svc.OpenStores(), FrequencyPresets, id).None? && !HasId(frequencyPresets, id)
      modifies this, svc, svc.ls
      ensures Valid()
      ensures IsBlank(old(presetName)) || !old(svc.CanOpen()) ==>
        unchanged(this) && unchanged(svc) && unchanged(svc.ls)
      ensures !IsBlank(old(presetName)) && old(svc.CanOpen()) ==>
        var p := Preset(id, Trim(old(presetName)), FrequencyPayload(old(frequency), old(emissionIntensity), old(waveformType)), now);
        && svc.stores == PutRecord(old(svc.OpenStores()), FrequencyPresets, FrequencyPresetRecord(p))
        && State() == old(State()).(frequencyPresets := WithNew(old(frequencyPresets), p), selectedPresetId := id)
        && svc.ls.items == (if svc.ls.available then old(svc.ls.items)[LastActiveKey := id] else old(svc.ls.items))
    {
      if IsBlank(presetName) {
        return;
      }
      var p := Preset(id, Trim(presetName), FrequencyPayload(frequency, emissionIntensity, waveformType), now);
      var ok := svc.Put(FrequencyPresets, FrequencyPresetRecord(p));
      if !ok {
        return;
      }
      Select(p);
    }

    method Select(p: FrequencyPreset)
      requires Valid() && !HasId(frequencyPresets, p.id)
      modifies this, svc.ls
      ensures Valid()
      ensures State() == old(State()).(frequencyPresets := WithNew(old(frequencyPresets), p), selectedPresetId := p.id)
      ensures svc.ls.items == (if svc.ls.available then old(svc.ls.items)[LastActiveKey := p.id] else old(svc.ls.items))
    {
      frequencyPresets := WithNew(frequencyPresets, p);
      selectedPresetId := p.id;
      svc.ls.SetItem(LastActiveKey, p.id);
    }

    /** `handleLoadPreset`: loads a listed preset; an unknown id changes nothing. */
    method LoadPreset(id: string)
      requires Valid()
      modifies this, svc.ls
      ensures Valid()
      ensures !HasId(old(frequencyPresets), id) ==> unchanged(this) && unchanged(svc.ls)
      ensures HasId(old(frequencyPresets), id) ==>
        var p := Find(old(frequencyPresets), IdOf, id).value;
        && p in old(frequencyPresets) && p.id == id
        && State() == Loading(old(State()), p)
        && svc.ls.items == (if svc.ls.available then old(svc.ls.items)[LastActiveKey := id] else old(svc.ls.items))
    {
      var found := Find(frequencyPresets, IdOf, id);
      if found.None? {
        return;
      }
      Apply(found.value);
    }

    /** `handleDeletePreset`: after confirmation the record is deleted and the
        preset leaves the list; deleting the selected one also resets the
        name and settings to 432 Hz, intensity 50, sine, and forgets the key. */
    method DeletePreset(id: string, confirmed: bool)
      requires Valid()
      modifies this, svc, svc.ls
      ensures Valid()
      ensures !confirmed || !old(svc.CanOpen()) ==> unchanged(this) && unchanged(svc) && unchanged(svc.ls)
      ensures confirmed && old(svc.CanOpen()) ==>
        && svc.stores == DeleteRecord(old(svc.OpenStores()), FrequencyPresets, id)
        && frequencyPresets == Without(old(frequencyPresets), id)
      ensures confirmed && old(svc.CanOpen()) && old(selectedPresetId) != id ==>
        State() == old(State()).(frequencyPresets := frequencyPresets) && unchanged(svc.ls)
      ensures confirmed && old(svc.CanOpen()) && old(selectedPresetId) == id ==>
        && State() == Cleared(old(State()).(frequencyPresets := frequencyPresets))
        && svc.ls.items == (if svc.ls.available then old(svc.ls.items) - {LastActiveKey} else old(svc.ls.items))
    {
      if !confirmed {
        return;
      }
      var ok := svc.Delete(FrequencyPresets, id);
      if !ok {
        return;
      }
      Forget(id);
    }

    method Forget(id: string)
      requires Valid()
      modifies this, svc.ls
      ensures Valid()
      ensures frequencyPresets == Without(old(frequencyPresets), id)
      ensures old(selectedPresetId) != id ==> State() == old(State()).(frequencyPresets := frequencyPresets) && unchanged(svc.ls)
      ensures old(selectedPresetId) == id ==>
        && State() == Cleared(old(State()).(frequencyPresets := frequencyPresets))
        && svc.ls.items == (if svc.ls.available then old(svc.ls.items) - {LastActiveKey} else old(svc.ls.items))
    {
      RemoveKeepsOrder(frequencyPresets, id);
      frequencyPresets := Without(frequencyPresets, id);
      if selectedPresetId == id {
        presetName := "";
        frequency := DefaultFrequency.frequencyHz;
        emissionIntensity := DefaultFrequency.emissionIntensity;
        waveformType := DefaultFrequency.waveformType;
        selectedPresetId := "";
        svc.ls.RemoveItem(LastActiveKey);
      }
    }

    /** The auto-save effect: with a selection and a non-blank name, the
        selected preset is rewritten with the trimmed name, the current
        settings and its original creation time, in the database (not
        awaited) and in the list. */
    method AutoSave(now: int)
      requires Valid()
      modifies this, svc
      ensures Valid()
      ensures old(selectedPresetId) == "" || IsBlank(old(presetName)) ==> unchanged(this) && unchanged(svc)
      ensures old(selectedPresetId) != "" && !IsBlank(old(presetName)) ==>
        var u := AutoSaved(old(frequencyPresets), old(selectedPresetId), old(presetName), FrequencyPayload(old(frequency), old(emissionIntensity), old(waveformType)), now);
        && State() == old(State()).(frequencyPresets := Replaced(old(frequencyPresets), u))
        && (old(svc.CanOpen()) ==> svc.stores == PutRecord(old(svc.OpenStores()), FrequencyPresets, FrequencyPresetRecord(u)))
        && (!old(svc.CanOpen()) ==> unchanged(svc))
    {
      if selectedPresetId == "" || IsBlank(presetName) {
        return;
      }
      var payload := FrequencyPayload(frequency, emissionIntensity, waveformType);
      var u := AutoSaved(frequencyPresets, selectedPresetId, presetName, payload, now);
      AutoSaveKeepsIds(frequencyPresets, selectedPresetId, presetName, payload, now);
      var _ := svc.Put(FrequencyPresets, FrequencyPresetRecord(u));
      frequencyPresets := Replaced(frequencyPresets, u);
    }
  }
}
