/** The subliminal maker: a profile being edited (name, base audio track,
    a list of affirmations, three infusion settings), the imported audio
    tracks, and a list of saved profiles kept newest first, with auto-save
    of the selected one and export under a sanitised file name. */
module Maker {
  import opened Common
  import opened Types
  import opened Constants
  import opened Lists
  import opened Presets
  import opened Storage

  const LastActiveKey: string := "subliminalMakerLastActiveProfileId"
  const NoAudioLabel: string := "No audio selected"

  // ---------------------------------------------------------------------
  // Affirmation list editing

  /** The entry `addAffirmation` appends and the form starts with. */
  function DefaultAffirmation(id: string): Affirmation {
    Affirmation(id, "", Int(50), Int(0))
  }

  function AffirmationId(a: Affirmation): string { a.id }

  /** `[...prev, { id, text: '', intensity: 50, delay: 0 }]`. */
  function Added(affs: seq<Affirmation>, id: string): (r: seq<Affirmation>)
    ensures |r| == |affs| + 1 && r[..|affs|] == affs
    ensures r[|affs|] == Affirmation(id, "", Int(50), Int(0))
  {
    affs + [DefaultAffirmation(id)]
  }

  /** The field `updateAffirmation` sets and its new value. */
  datatype AffirmationEdit =
    | EditText(text: string)
      /** `parseInt(e.target.value)` of the intensity input; None where it
          gives `NaN`. */
    | EditIntensity(parsed: Option<int>)
      /** `parseInt(e.target.value)` of the delay input; None where it gives
          `NaN`. */
    | EditDelay(parsed: Option<int>)

  /** `{ ...aff, [field]: value }`: only the named field changes. */
  function Edited(a: Affirmation, e: AffirmationEdit): (r: Affirmation)
    ensures r.id == a.id
    ensures r.text == (if e.EditText? then e.text else a.text)
    ensures !e.EditIntensity? ==> r.intensity == a.intensity
    ensures e.EditIntensity? && e.parsed.Some? ==> r.intensity == Int(e.parsed.value)
    ensures e.EditIntensity? && e.parsed.None? ==> r.intensity.NaN?
    ensures !e.EditDelay? ==> r.delay == a.delay
    ensures e.EditDelay? && e.parsed.Some? ==> r.delay == Int(e.parsed.value)
    ensures e.EditDelay? && e.parsed.None? ==> r.delay.NaN?
  {
    match e
    case EditText(t) => a.(text := t)
    case EditIntensity(p) => a.(intensity := FromParsed(p))
    case EditDelay(p) => a.(delay := FromParsed(p))
  }

  /** `prev.map(aff => aff.id === id ? { ...aff, [field]: value } : aff)`. */
  function Updated(affs: seq<Affirmation>, id: string, e: AffirmationEdit): (r: seq<Affirmation>)
    ensures |r| == |affs|
    ensures forall i :: 0 <= i < |affs| ==> r[i].id == affs[i].id
    ensures forall i :: 0 <= i < |affs| && affs[i].id == id ==> r[i] == Edited(affs[i], e)
    ensures forall i :: 0 <= i < |affs| && affs[i].id != id ==> r[i] == affs[i]
  {
    seq(|affs|, i requires 0 <= i < |affs| => if affs[i].id == id then Edited(affs[i], e) else affs[i])
  }

  /** `prev.filter(aff => aff.id !== id)`. */
  function Removed(affs: seq<Affirmation>, id: string): (r: seq<Affirmation>)
    ensures forall x :: x in r <==> x in affs && x.id != id
  {
    Filter(affs, (a: Affirmation) => a.id != id)
  }

  /** Removing an entry just added under an id no other entry has gives
      the list back. */
  lemma RemoveUndoesAdd(affs: seq<Affirmation>, id: string)
    requires forall i :: 0 <= i < |affs| ==> affs[i].id != id
    ensures Removed(Added(affs, id), id) == affs
  {
    var keep := (a: Affirmation) => a.id != id;
    FilterAppend(affs, DefaultAffirmation(id), keep);
    FilterAll(affs, keep);
    assert Added(affs, id) == affs + [DefaultAffirmation(id)];
  }

  /** Editing an entry and then removing it is removing it. */
  lemma {:induction false} RemoveAfterUpdate(affs: seq<Affirmation>, id: string, e: AffirmationEdit)
    ensures Removed(Updated(affs, id, e), id) == Removed(affs, id)
  {
    if affs != [] {
      RemoveAfterUpdate(affs[1..], id, e);
      assert Updated(affs, id, e)[1..] == Updated(affs[1..], id, e);
    }
  }

  /** `affirmations.filter(aff => aff.text.trim())`. */
  function NonBlank(affs: seq<Affirmation>): (r: seq<Affirmation>)
    ensures forall x :: x in r <==> x in affs && !IsBlank(x.text)
  {
    Filter(affs, (a: Affirmation) => !IsBlank(a.text))
  }

  /** Dropping blank entries a second time changes nothing, and leaves
      nothing exactly when every entry is blank. */
  lemma NonBlankIdempotent(affs: seq<Affirmation>)
    ensures NonBlank(NonBlank(affs)) == NonBlank(affs)
    ensures NonBlank(affs) == [] <==> forall i :: 0 <= i < |affs| ==> IsBlank(affs[i].text)
  {
    var keep := (a: Affirmation) => !IsBlank(a.text);
    var r := NonBlank(affs);
    assert forall i :: 0 <= i < |r| ==> keep(r[i]) by {
      forall i | 0 <= i < |r| ensures keep(r[i]) {
        assert r[i] in r;
      }
    }
    FilterAll(r, keep);
    if r == [] {
      forall i | 0 <= i < |affs| ensures IsBlank(affs[i].text) {
        assert affs[i] in affs;
        assert affs[i] !in r;
      }
    } else {
      assert r[0] in r;
    }
  }

  /** The list `loadProfile` shows: the stored entries, or one fresh default
      entry when there are none. */
  function Shown(affs: seq<Affirmation>, freshId: string): (r: seq<Affirmation>)
    ensures |affs| > 0 ==> r == affs
    ensures |affs| == 0 ==> r == [Affirmation(freshId, "", Int(50), Int(0))]
  {
    if |affs| > 0 then affs else [DefaultAffirmation(freshId)]
  }

  // ---------------------------------------------------------------------
  // Infusion settings

  function InfusionOf(s: InfusionSettings, f: InfusionField): int {
    match f
    case HarmonicResonance => s.harmonicResonance
    case QuantumEntanglement => s.quantumEntanglement
    case EthericVibration => s.ethericVibration
  }

  /** `{ ...prev, [field]: value }`. */
  function WithInfusion(s: InfusionSettings, f: InfusionField, v: int): (r: InfusionSettings)
    ensures InfusionOf(r, f) == v
    ensures forall g :: g != f ==> InfusionOf(r, g) == InfusionOf(s, g)
  {
    match f
    case HarmonicResonance => s.(harmonicResonance := v)
    case QuantumEntanglement => s.(quantumEntanglement := v)
    case EthericVibration => s.(ethericVibration := v)
  }

  // ---------------------------------------------------------------------
  // Base audio

  function TrackId(t: AudioTrack): string { t.id }

  /** `audioTracks.find(t => t.id === baseAudioId)?.name || 'No audio selected'`. */
  function BaseAudioName(tracks: seq<AudioTrack>, id: string): (r: string)
    ensures (exists i :: 0 <= i < |tracks| && tracks[i].id == id && tracks[i].name != "" &&
                          (forall j :: 0 <= j < i ==> tracks[j].id != id) && r == tracks[i].name)
            || r == NoAudioLabel
    ensures (forall i :: 0 <= i < |tracks| ==> tracks[i].id != id) ==> r == NoAudioLabel
    ensures forall i :: 0 <= i < |tracks| && tracks[i].id == id && (forall j :: 0 <= j < i ==> tracks[j].id != id) ==>
              r == OrElse(tracks[i].name, NoAudioLabel)
  {
    match Find(tracks, TrackId, id)
    case None => NoAudioLabel
    case Some(t) => OrElse(t.name, NoAudioLabel)
  }

  // ---------------------------------------------------------------------
  // Saving and exporting

  /** Why `handleSaveProfile` refuses to save. */
  datatype Rejection = BlankName | NoBaseAudio | NoAffirmations

  /** The save checks, in the order the handler makes them: the name, then
      the base audio, then the non-blank affirmations. */
  function SaveRejection(name: string, baseAudioId: string, affs: seq<Affirmation>): (r: Option<Rejection>)
    ensures r == Some(BlankName) <==> IsBlank(name)
    ensures r == Some(NoBaseAudio) <==> !IsBlank(name) && baseAudioId == ""
    ensures r == Some(NoAffirmations) <==> !IsBlank(name) && baseAudioId != "" && NonBlank(affs) == []
  {
    if IsBlank(name) then Some(BlankName)
    else if baseAudioId == "" then Some(NoBaseAudio)
    else if NonBlank(affs) == [] then Some(NoAffirmations)
    else None
  }

  /** A profile passes the checks exactly when it has a name, a base audio
      track and an affirmation with text. */
  lemma SaveAccepted(name: string, baseAudioId: string, affs: seq<Affirmation>)
    ensures SaveRejection(name, baseAudioId, affs).None? <==>
      !IsBlank(name) && baseAudioId != "" && exists i :: 0 <= i < |affs| && !IsBlank(affs[i].text)
  {
    NonBlankIdempotent(affs);
  }

  /** `name.replace(/[^a-z0-9]/gi, '_')`. */
  function Sanitized(name: string): (r: string)
    ensures |r| == |name|
    ensures forall i :: 0 <= i < |name| ==> r[i] == (if IsAsciiAlnum(name[i]) then name[i] else '_')
  {
    if name == [] then [] else [if IsAsciiAlnum(name[0]) then name[0] else '_'] + Sanitized(name[1..])
  }

  /** The download name of an exported profile. */
  function ExportFileName(name: string): (r: string)
    ensures |r| == |name| + 5 && r[|name|..] == ".json"
    ensures forall i :: 0 <= i < |name| ==> IsAsciiAlnum(r[i]) || r[i] == '_'
    ensures forall i :: 0 <= i < |name| && IsAsciiAlnum(name[i]) ==> r[i] == name[i]
  {
    Sanitized(name) + ".json"
  }

  /** A name already made of letters, digits and underscores is kept, so
      exporting under an exported name gives the same file name. */
  lemma SanitizedIdempotent(name: string)
    ensures Sanitized(Sanitized(name)) == Sanitized(name)
  {
    var s := Sanitized(name);
    assert forall i :: 0 <= i < |s| ==> !IsAsciiAlnum(s[i]) ==> s[i] == '_';
  }

  // ---------------------------------------------------------------------
  // The component

  datatype Snapshot = Snapshot(
    profileName: string,
    baseAudioId: string,
    affirmations: seq<Affirmation>,
    infusionSettings: InfusionSettings,
    audioTracks: seq<AudioTrack>,
    savedProfiles: seq<SubliminalProfile>,
    selectedProfileId: string)

  /** What `loadProfile` sets: the profile's name, base audio, affirmations
      (one fresh default entry when it has none) and settings, and its id as
      the selection. */
  function Loading(s: Snapshot, p: SubliminalProfile, freshId: string): (r: Snapshot)
    ensures r.savedProfiles == s.savedProfiles && r.audioTracks == s.audioTracks
    ensures r.profileName == p.name && r.selectedProfileId == p.id
    ensures r.baseAudioId == OrEmpty(p.payload.baseAudioId)
    ensures r.affirmations == Shown(p.payload.affirmations, freshId)
    ensures r.infusionSettings == p.payload.infusionSettings
  {
    s.(profileName := p.name, baseAudioId := OrEmpty(p.payload.baseAudioId),
       affirmations := Shown(p.payload.affirmations, freshId),
       infusionSettings := p.payload.infusionSettings, selectedProfileId := p.id)
  }

  /** The form after the selected profile is deleted. */
  function Cleared(s: Snapshot, freshId: string): (r: Snapshot)
    ensures r.savedProfiles == s.savedProfiles && r.audioTracks == s.audioTracks
    ensures r.profileName == "" && r.baseAudioId == "" && r.selectedProfileId == ""
    ensures r.affirmations == [Affirmation(freshId, "", Int(50), Int(0))]
    ensures r.infusionSettings == DefaultInfusionSettings
  {
    s.(profileName := "", baseAudioId := "", affirmations := [DefaultAffirmation(freshId)],
       infusionSettings := DefaultInfusionSettings, selectedProfileId := "")
  }

  /** What the form saves: the base audio if any, only the affirmations
      with text, and the settings. */
  function PayloadOf(baseAudioId: string, affs: seq<Affirmation>, settings: InfusionSettings): (r: ProfilePayload)
    ensures r.baseAudioId == NonEmpty(baseAudioId)
    ensures forall x :: x in r.affirmations <==> x in affs && !IsBlank(x.text)
    ensures r.infusionSettings == settings
  {
    ProfilePayload(NonEmpty(baseAudioId), NonBlank(affs), settings)
  }

  /** A loaded profile whose affirmations all have text saves back its own
      payload. */
  lemma LoadThenSave(s: Snapshot, p: SubliminalProfile, freshId: string)
    requires p.payload.baseAudioId != Some("") && |p.payload.affirmations| > 0
    requires forall i :: 0 <= i < |p.payload.affirmations| ==> !IsBlank(p.payload.affirmations[i].text)
    ensures var r := Loading(s, p, freshId);
      PayloadOf(r.baseAudioId, r.affirmations, r.infusionSettings) == p.payload
  {
    FilterAll(p.payload.affirmations, (a: Affirmation) => !IsBlank(a.text));
    OptionalRoundTrip("", p.payload.baseAudioId);
    assert NonBlank(p.payload.affirmations) == p.payload.affirmations;
  }

  lemma ProfilesShown(recs: seq<Record>, db: Db)
    requires WellFormed(db) && SubliminalProfiles in db && IsListing(recs, db[SubliminalProfiles])
    ensures WellOrdered(Loaded(recs, AsProfile))
    ensures Shows(Loaded(recs, AsProfile), db[SubliminalProfiles], AsProfile, IdOf)
  {
    var m := db[SubliminalProfiles];
    assert forall k :: k in m ==> AsProfile(m[k]).Some? && IdOf(AsProfile(m[k]).value) == k;
    LoadedFromListing(recs, m, AsProfile);
  }

  /** The tracks are shown in the order `getAll` lists them. */
  lemma TracksShown(recs: seq<Record>, db: Db)
    requires WellFormed(db) && AudioTracks in db && IsListing(recs, db[AudioTracks])
    ensures Shows(Collect(recs, AsAudioTrack), db[AudioTracks], AsAudioTrack, TrackId)
  {
    var m := db[AudioTracks];
    assert forall k :: k in m ==> AsAudioTrack(m[k]).Some? && TrackId(AsAudioTrack(m[k]).value) == k;
    CollectFromListing(recs, m, AsAudioTrack, TrackId);
    var c := Collect(recs, AsAudioTrack);
    forall i | 0 <= i < |c| ensures TrackId(c[i]) in m && AsAudioTrack(m[TrackId(c[i])]) == Some(c[i]) {
      assert c[i] in c;
    }
  }

  class SubliminalMaker {
    var profileName: string
    /** The selected track id, `''` for none. */
    var baseAudioId: string
    var affirmations: seq<Affirmation>
    var infusionSettings: InfusionSettings
    var audioTracks: seq<AudioTrack>
    var savedProfiles: seq<SubliminalProfile>
    var selectedProfileId: string
    const svc: StorageService

    function State(): Snapshot
      reads this
    {
      Snapshot(profileName, baseAudioId, affirmations, infusionSettings, audioTracks, savedProfiles, selectedProfileId)
    }

    /** The saved profiles are newest first with unique ids and the
        selection is empty or listed. */
    ghost predicate Valid()
      reads this, svc
    {
      && svc.Valid()
      && WellOrdered(savedProfiles)
      && (selectedProfileId == "" || HasId(savedProfiles, selectedProfileId))
    }

    /** The form starts with one empty affirmation under a fresh id. */
    constructor (svc: StorageService, firstId: string)
      requires svc.Valid()
      ensures Valid() && this.svc == svc
      ensures State() == Snapshot("", "", [Affirmation(firstId, "", Int(50), Int(0))], DefaultInfusionSettings, [], [], "")
    {
      profileName := "";
      baseAudioId := "";
      affirmations := [DefaultAffirmation(firstId)];
      infusionSettings := DefaultInfusionSettings;
      audioTracks := [];
      savedProfiles := [];
      selectedProfileId := "";
      this.svc := svc;
    }

    /** `loadInitialData`: the tracks as listed and the profiles newest
        first; the profile named by the "last active" key, if listed, is
        loaded. A failing read changes nothing. */
    method LoadInitialData(freshId: string)
      requires Valid() && selectedProfileId == ""
      modifies this, svc, svc.ls
      ensures Valid()
      ensures !old(svc.CanOpen()) ==> unchanged(this) && unchanged(svc) && unchanged(svc.ls)
      ensures old(svc.CanOpen()) ==>
        && svc.isOpen && svc.stores == old(svc.OpenStores())
        && Shows(audioTracks, svc.stores[AudioTracks], AsAudioTrack, TrackId)
        && Shows(savedProfiles, svc.stores[SubliminalProfiles], AsProfile, IdOf)
      ensures old(svc.CanOpen()) ==>
        match Restored(savedProfiles, old(svc.ls.GetItem(LastActiveKey)))
        case None =>
          State() == old(State()).(audioTracks := audioTracks, savedProfiles := savedProfiles) && unchanged(svc.ls)
        case Some(p) =>
          && State() == Loading(old(State()).(audioTracks := audioTracks, savedProfiles := savedProfiles), p, freshId)
          && svc.ls.items == (if svc.ls.available then old(svc.ls.items)[LastActiveKey := p.id] else old(svc.ls.items))
    {
      var tracks := svc.GetAll(AudioTracks);
      if tracks.None? {
        return;
      }
      var profiles := svc.GetAll(SubliminalProfiles);
      if profiles.None? {
        assert false;
        return;
      }
      Show(tracks.value, profiles.value);
      Restore(freshId);
    }

    method Show(trackRecs: seq<Record>, recs: seq<Record>)
      requires Valid() && selectedProfileId == "" && HasAllStores(svc.stores)
      requires IsListing(trackRecs, svc.stores[AudioTracks])
      requires IsListing(recs, svc.stores[SubliminalProfiles])
      modifies this
      ensures Valid()
      ensures State() == old(State()).(audioTracks := audioTracks, savedProfiles := savedProfiles)
      ensures Shows(audioTracks, svc.stores[AudioTracks], AsAudioTrack, TrackId)
      ensures Shows(savedProfiles, svc.stores[SubliminalProfiles], AsProfile, IdOf)
    {
      TracksShown(trackRecs, svc.stores);
      ProfilesShown(recs, svc.stores);
      audioTracks := Collect(trackRecs, AsAudioTrack);
      savedProfiles := Loaded(recs, AsProfile);
    }

    /** Loads the profile the "last active" key names, if it is listed. */
    method Restore(freshId: string)
      requires Valid()
      modifies this, svc.ls
      ensures Valid()
      ensures match Restored(savedProfiles, old(svc.ls.GetItem(LastActiveKey)))
        case None => unchanged(this) && unchanged(svc.ls)
        case Some(p) =>
          && State() == Loading(old(State()), p, freshId)
          && svc.ls.items == (if svc.ls.available then old(svc.ls.items)[LastActiveKey := p.id] else old(svc.ls.items))
    {
      var restored := Restored(savedProfiles, svc.ls.GetItem(LastActiveKey));
      if restored.Some? {
        Apply(restored.value, freshId);
      }
    }

    /** `loadProfile`. */
    method Apply(p: SubliminalProfile, freshId: string)
      requires Valid() && p in savedProfiles
      modifies this, svc.ls
      ensures Valid()
      ensures State() == Loading(old(State()), p, freshId)
      ensures svc.ls.items == (if svc.ls.available then old(svc.ls.items)[LastActiveKey := p.id] else old(svc.ls.items))
    {
      profileName := p.name;
      baseAudioId := OrEmpty(p.payload.baseAudioId);
      affirmations := Shown(p.payload.affirmations, freshId);
      infusionSettings := p.payload.infusionSettings;
      selectedProfileId := p.id;
      svc.ls.SetItem(LastActiveKey, p.id);
    }

    /** `addAffirmation`, with the entry's fresh id. */
    method AddAffirmation(id: string)
      requires Valid()
      modifies this
      ensures Valid()
      ensures State() == old(State()).(affirmations := Added(old(affirmations), id))
    {
      affirmations := Added(affirmations, id);
    }

    method UpdateAffirmation(id: string, e: AffirmationEdit)
      requires Valid()
      modifies this
      ensures Valid()
      ensures State() == old(State()).(affirmations := Updated(old(affirmations), id, e))
    {
      affirmations := Updated(affirmations, id, e);
    }

    method RemoveAffirmation(id: string)
      requires Valid()
      modifies this
      ensures Valid()
      ensures State() == old(State()).(affirmations := Removed(old(affirmations), id))
    {
      affirmations := Removed(affirmations, id);
    }

    method InfusionSettingChanged(f: InfusionField, v: int)
      requires Valid()
      modifies this
      ensures Valid()
      ensures State() == old(State()).(infusionSettings := WithInfusion(old(infusionSettings), f, v))
    {
      infusionSettings := WithInfusion(infusionSettings, f, v);
    }

    method ProfileNameChanged(name: string)
      requires Valid()
      modifies this
      ensures Valid()
      ensures State() == old(State()).(profileName := name)
    {
      profileName := name;
    }

    /** Picking an existing track from the list. */
    method BaseAudioSelected(id: string)
      requires Valid()
      modifies this
      ensures Valid()
      ensures State() == old(State()).(baseAudioId := id)
    {
      baseAudioId := id;
    }

    /** `handleBaseAudioFileChange`: a picked file that could be read is
        stored as a new track under `id`, appended to the tracks and made
        the base audio. No file, an unreadable file or a failing write
        changes nothing. */
    method BaseAudioFileChanged(file: Option<PickedFile>, id: string)
      requires Valid()
      modifies this, svc
      ensures Valid()
      ensures file.None? || file.value.dataUrl.None? || !old(svc.CanOpen()) ==> unchanged(this) && unchanged(svc)
      ensures file.Some? && file.value.dataUrl.Some? && old(svc.CanOpen()) ==>
        var t := AudioTrack(id, file.value.name, file.value.dataUrl.value, file.value.mimeType);
        && svc.stores == PutRecord(old(svc.OpenStores()), AudioTracks, AudioTrackRecord(t))
        && State() == old(State()).(audioTracks := old(audioTracks) + [t], baseAudioId := id)
    {
      if file.None? || file.value.dataUrl.None? {
        return;
      }
      var t := AudioTrack(id, file.value.name, file.value.dataUrl.value, file.value.mimeType);
      var ok := svc.Put(AudioTracks, AudioTrackRecord(t));
      if !ok {
        return;
      }
      audioTracks := audioTracks + [t];
      baseAudioId := id;
    }

    /** `handleSaveProfile`: refused for a blank name, a missing base audio
        or no affirmation with text, in that order; otherwise the trimmed
        name, the base audio, the affirmations with text and the settings
        are written under a fresh id, the profile joins the list newest
        first, is selected and remembered. A failing write stops the handler
        before the list changes. */
    method SaveProfile(id: string, now: int) returns (rejected: Option<Rejection>)
      requires Valid()
      requires GetRecord(svc.OpenStores(), SubliminalProfiles, id).None? && !HasId(savedProfiles, id)
      modifies this, svc, svc.ls
      ensures Valid()
      ensures rejected == SaveRejection(old(profileName), old(baseAudioId), old(affirmations))
      ensures rejected.Some? || !old(svc.CanOpen()) ==> unchanged(this) && unchanged(svc) && unchanged(svc.ls)
      ensures rejected.None? && old(svc.CanOpen()) ==>
        var p := Preset(id, Trim(old(profileName)), PayloadOf(old(baseAudioId), old(affirmations), old(infusionSettings)), now);
        && svc.stores == PutRecord(old(svc.OpenStores()), SubliminalProfiles, ProfileRecord(p))
        && State() == old(State()).(savedProfiles := WithNew(old(savedProfiles), p), selectedProfileId := id)
        && svc.ls.items == (if svc.ls.available then old(svc.ls.items)[LastActiveKey := id] else old(svc.ls.items))
    {
      rejected := SaveRejection(profileName, baseAudioId, affirmations);
      if rejected.Some? {
        return;
      }
      var p := Preset(id, Trim(profileName), PayloadOf(baseAudioId, affirmations, infusionSettings), now);
      var ok := svc.Put(SubliminalProfiles, ProfileRecord(p));
      if !ok {
        return;
      }
      Select(p);
    }

    method Select(p: SubliminalProfile)
      requires Valid() && !HasId(savedProfiles, p.id)
      modifies this, svc.ls
      ensures Valid()
      ensures State() == old(State()).(savedProfiles := WithNew(old(savedProfiles), p), selectedProfileId := p.id)
      ensures svc.ls.items == (if svc.ls.available then old(svc.ls.items)[LastActiveKey := p.id] else old(svc.ls.items))
    {
      savedProfiles := WithNew(savedProfiles, p);
      selectedProfileId := p.id;
      svc.ls.SetItem(LastActiveKey, p.id);
    }

    /** `handleLoadProfile`: loads a listed profile; an unknown id changes
        nothing. */
    method LoadProfile(id: string, freshId: string)
      requires Valid()
      modifies this, svc.ls
      ensures Valid()
      ensures !HasId(old(savedProfiles), id) ==> unchanged(this) && unchanged(svc.ls)
      ensures HasId(old(savedProfiles), id) ==>
        var p := Find(old(savedProfiles), IdOf, id).value;
        && p in old(savedProfiles) && p.id == id
        && State() == Loading(old(State()), p, freshId)
        && svc.ls.items == (if svc.ls.available then old(svc.ls.items)[LastActiveKey := id] else old(svc.ls.items))
    {
      var found := Find(savedProfiles, IdOf, id);
      if found.None? {
        return;
      }
      Apply(found.value, freshId);
    }

    /** `handleDeleteProfile`: after confirmation the record is deleted and
        the profile leaves the list; deleting the selected one also resets
        the form and forgets the key, deleting another leaves the form. */
    method DeleteProfile(id: string, confirmed: bool, freshId: string)
      requires Valid()
      modifies this, svc, svc.ls
      ensures Valid()
      ensures !confirmed || !old(svc.CanOpen()) ==> unchanged(this) && unchanged(svc) && unchanged(svc.ls)
      ensures confirmed && old(svc.CanOpen()) ==>
        && svc.stores == DeleteRecord(old(svc.OpenStores()), SubliminalProfiles, id)
        && savedProfiles == Without(old(savedProfiles), id)
      ensures confirmed && old(svc.CanOpen()) && old(selectedProfileId) != id ==>
        State() == old(State()).(savedProfiles := savedProfiles) && unchanged(svc.ls)
      ensures confirmed && old(svc.CanOpen()) && old(selectedProfileId) == id ==>
        && State() == Cleared(old(State()).(savedProfiles := savedProfiles), freshId)
        && svc.ls.items == (if svc.ls.available then old(svc.ls.items) - {LastActiveKey} else old(svc.ls.items))
    {
      if !confirmed {
        return;
      }
      var ok := svc.Delete(SubliminalProfiles, id);
      if !ok {
        return;
      }
      Forget(id, freshId);
    }

    method Forget(id: string, freshId: string)
      requires Valid()
      modifies this, svc.ls
      ensures Valid()
      ensures savedProfiles == Without(old(savedProfiles), id)
      ensures old(selectedProfileId) != id ==> State() == old(State()).(savedProfiles := savedProfiles) && unchanged(svc.ls)
      ensures old(selectedProfileId) == id ==>
        && State() == Cleared(old(State()).(savedProfiles := savedProfiles), freshId)
        && svc.ls.items == (if svc.ls.available then old(svc.ls.items) - {LastActiveKey} else old(svc.ls.items))
    {
      RemoveKeepsOrder(savedProfiles, id);
      savedProfiles := Without(savedProfiles, id);
      if selectedProfileId == id {
        profileName := "";
        baseAudioId := "";
        affirmations := [DefaultAffirmation(freshId)];
        infusionSettings := DefaultInfusionSettings;
        selectedProfileId := "";
        svc.ls.RemoveItem(LastActiveKey);
      }
    }

    /** The auto-save effect: with a selection and a non-blank name, the
        selected profile is rewritten with the trimmed name, the base audio
        if any, the affirmations with text, the settings and its original
        creation time, in the database (not awaited) and in the list. */
    method AutoSave(now: int)
      requires Valid()
      modifies this, svc
      ensures Valid()
      ensures old(selectedProfileId) == "" || IsBlank(old(profileName)) ==> unchanged(this) && unchanged(svc)
      ensures old(selectedProfileId) != "" && !IsBlank(old(profileName)) ==>
        var u := AutoSaved(old(savedProfiles), old(selectedProfileId), old(profileName),
                           PayloadOf(old(baseAudioId), old(affirmations), old(infusionSettings)), now);
        && State() == old(State()).(savedProfiles := Replaced(old(savedProfiles), u))
        && (old(svc.CanOpen()) ==> svc.stores == PutRecord(old(svc.OpenStores()), SubliminalProfiles, ProfileRecord(u)))
        && (!old(svc.CanOpen()) ==> unchanged(svc))
    {
      if selectedProfileId == "" || IsBlank(profileName) {
        return;
      }
      var payload := PayloadOf(baseAudioId, affirmations, infusionSettings);
      var u := AutoSaved(savedProfiles, selectedProfileId, profileName, payload, now);
      AutoSaveKeepsIds(savedProfiles, selectedProfileId, profileName, payload, now);
      var _ := svc.Put(SubliminalProfiles, ProfileRecord(u));
      savedProfiles := Replaced(savedProfiles, u);
    }

    /** The export button: the selected profile, if listed, and the file
        name it would be downloaded under. */
    function ExportName(): (r: Option<string>)
      reads this
      ensures r.Some? <==> HasId(savedProfiles, selectedProfileId)
      ensures r.Some? ==> exists i :: 0 <= i < |savedProfiles| && savedProfiles[i].id == selectedProfileId &&
                                     r.value == ExportFileName(savedProfiles[i].name)
    {
      match Find(savedProfiles, IdOf, selectedProfileId)
      case None => None
      case Some(p) => Some(ExportFileName(p.name))
    }
  }
}
