/** The subliminal amplifier: three audio slots holding track ids (or
    null), two sliders, a playback flag, and the microphone input level
    shown as a percentage. The settings live in a one-record store that is
    rewritten whenever they change. */
module Amplifier {
  import opened Common
  import opened Types
  import opened Constants
  import opened Lists
  import opened Storage

  // ---------------------------------------------------------------------
  // Slots

  /** `newActiveTracks[slot] = v` on a copy: only that slot changes. */
  function WithSlot(s: AmplifierSettings, slot: nat, v: Option<string>): (r: AmplifierSettings)
    requires slot < |s.activeTracks|
    ensures |r.activeTracks| == |s.activeTracks| && r.activeTracks[slot] == v
    ensures forall j :: 0 <= j < |s.activeTracks| && j != slot ==> r.activeTracks[j] == s.activeTracks[j]
    ensures r.auraExpansion == s.auraExpansion && r.frequencyField == s.frequencyField
  {
    s.(activeTracks := s.activeTracks[slot := v])
  }

  /** The last write to a slot wins, and writes to different slots do not
      interfere. */
  lemma SlotWrites(s: AmplifierSettings, i: nat, j: nat, a: Option<string>, b: Option<string>)
    requires i < |s.activeTracks| && j < |s.activeTracks|
    ensures WithSlot(WithSlot(s, i, a), i, b) == WithSlot(s, i, b)
    ensures i != j ==> WithSlot(WithSlot(s, i, a), j, b) == WithSlot(WithSlot(s, j, b), i, a)
  {
    var l := WithSlot(WithSlot(s, i, a), i, b).activeTracks;
    assert l == WithSlot(s, i, b).activeTracks;
    if i != j {
      var x := WithSlot(WithSlot(s, i, a), j, b).activeTracks;
      var y := WithSlot(WithSlot(s, j, b), i, a).activeTracks;
      assert |x| == |y|;
      assert forall k :: 0 <= k < |x| ==> x[k] == y[k];
    }
  }

  /** A slot value is truthy: an id that is not the empty string. */
  predicate Filled(v: Option<string>) {
    v.Some? && v.value != ""
  }

  function TrackId(t: AudioTrack): string { t.id }

  /** `trackId ? audioTracks.find(t => t.id === trackId) : null`: an empty
      slot, or an id no track has, shows no track. */
  function TrackAt(tracks: seq<AudioTrack>, v: Option<string>): (r: Option<AudioTrack>)
    ensures r.Some? ==> Filled(v) && r.value in tracks && r.value.id == v.value
    ensures r.None? <==> !Filled(v) || forall i :: 0 <= i < |tracks| ==> tracks[i].id != v.value
  {
    if !Filled(v) then None else Find(tracks, TrackId, v.value)
  }

  /** The playback button is enabled unless every slot is exactly null. */
  predicate PlaybackEnabled(s: AmplifierSettings) {
    exists i :: 0 <= i < |s.activeTracks| && s.activeTracks[i].Some?
  }

  /** The default settings leave the playback button disabled. */
  lemma DefaultsDisablePlayback()
    ensures !PlaybackEnabled(DefaultAmplifierSettings)
  {
    DefaultsShape();
  }

  // ---------------------------------------------------------------------
  // Input level

  /** `|v - 1|` for `v = d / 128`, times 128. */
  function Deviation(d: byte): (r: int)
    ensures 0 <= r <= 128
    ensures r == 0 <==> d == 128
  {
    if d >= 128 then d as int - 128 else 128 - d as int
  }

  /** The summed deviations of a buffer from the centre line, in 128ths. */
  function SumDeviation(data: seq<byte>): (r: int)
    ensures 0 <= r <= 128 * |data|
  {
    if data == [] then 0 else SumDeviation(data[..|data| - 1]) + Deviation(data[|data| - 1])
  }

  /** `Math.min(100, Math.round((totalAmplitude / bufferLength) * 200))`:
      the mean deviation scaled to a percentage, capped at 100. */
  function InputLevel(data: seq<byte>): (r: int)
    requires |data| > 0
    ensures 0 <= r <= 100
  {
    var mean := (SumDeviation(data) as real / 128.0) / (|data| as real);
    assert 0.0 <= mean;
    Min(100, Round(mean * 200.0))
  }

  /** A silent buffer (every sample on the centre line) reads 0. */
  lemma {:induction false} SilenceReadsZero(data: seq<byte>)
    requires |data| > 0 && forall i :: 0 <= i < |data| ==> data[i] == 128
    ensures InputLevel(data) == 0
  {
    SilentSum(data);
  }

  lemma {:induction false} SilentSum(data: seq<byte>)
    requires forall i :: 0 <= i < |data| ==> data[i] == 128
    ensures SumDeviation(data) == 0
  {
    if data != [] {
      SilentSum(data[..|data| - 1]);
    }
  }

  /** A buffer that swings half way or more on average reads the full 100. */
  lemma LoudReadsFull(data: seq<byte>)
    requires |data| > 0 && 2 * SumDeviation(data) >= 128 * |data|
    ensures InputLevel(data) == 100
  {
    var n := |data| as real;
    var a := SumDeviation(data) as real / 128.0;
    AtLeastHalf(a, n);
  }

  /** The step from the sum's bound to the mean's, kept apart so that the
      division is proved without the rest of the level's definition. */
  lemma AtLeastHalf(a: real, n: real)
    requires n > 0.0 && a >= 0.5 * n
    ensures a / n >= 0.5
  {
  }

  /** Settings other than the defaults, stored under `'singleton'`, are no
      longer there to read once the defaults have been written first. */
  lemma StoredSettingsLost(db: Db, x: AmplifierSettings)
    requires AmplifierSettingsStore in db && x != DefaultAmplifierSettings
    requires GetRecord(db, AmplifierSettingsStore, SingletonId) == Some(AmplifierRecord(SingletonId, x))
    ensures SettingsOrDefault(GetRecord(PutRecord(db, AmplifierSettingsStore, AmplifierRecord(SingletonId, DefaultAmplifierSettings)),
                                        AmplifierSettingsStore, SingletonId)) != x
  {
    SingletonRoundTrip(db, DefaultAmplifierSettings);
  }

  // ---------------------------------------------------------------------
  // The component

  datatype Snapshot = Snapshot(
    audioTracks: seq<AudioTrack>,
    settings: AmplifierSettings,
    isPlaying: bool,
    micPermissionGranted: bool,
    micInputLevel: int)

  /** The tracks are shown in the order `getAll` lists them. */
  lemma TracksShown(recs: seq<Record>, db: Db)
    requires WellFormed(db) && AudioTracks in db && IsListing(recs, db[AudioTracks])
    ensures Shows(Collect(recs, AsAudioTrack), db[AudioTracks], AsAudioTrack, TrackId)
  {
    var m := db[AudioTracks];
    assert forall k :: k in m ==> AsAudioTrack(m[k]).Some? && TrackId(AsAudioTrack(m[k]).value) == k;
    CollectFromListing(recs, m, AsAudioTrack, TrackId);
    var c := Collect(recs, AsAudioTrack);
    forall i | 0 <= i < |c| ensures TrackId(c[i]) in m && AsAudioTrack(m[TrackId(c[i])]) == Some(c[i]) {
      assert c[i] in c;
    }
  }

  class SubliminalAmplifier {
    var audioTracks: seq<AudioTrack>
    var settings: AmplifierSettings
    var isPlaying: bool
    var micPermissionGranted: bool
    var micInputLevel: int
    const svc: StorageService

    function State(): Snapshot
      reads this
    {
      Snapshot(audioTracks, settings, isPlaying, micPermissionGranted, micInputLevel)
    }

    /** The level is a percentage. */
    ghost predicate Valid()
      reads this, svc
    {
      svc.Valid() && 0 <= micInputLevel <= 100
    }

    constructor (svc: StorageService)
      requires svc.Valid()
      ensures Valid() && this.svc == svc
      ensures State() == Snapshot([], DefaultAmplifierSettings, false, false, 0)
    {
      audioTracks := [];
      settings := DefaultAmplifierSettings;
      isPlaying := false;
      micPermissionGranted := false;
      micInputLevel := 0;
      this.svc := svc;
    }

    /** `loadInitialData`: the tracks as listed, the stored settings (the
        defaults when none are stored) and the stored permission flag
        (`hasMicrophonePermission`). A failing read changes nothing. */
    method LoadInitialData()
      requires Valid()
      modifies this, svc
      ensures Valid()
      ensures !old(svc.CanOpen()) ==> unchanged(this) && unchanged(svc)
      ensures old(svc.CanOpen()) ==>
        && svc.isOpen && svc.stores == old(svc.OpenStores())
        && Shows(audioTracks, svc.stores[AudioTracks], AsAudioTrack, TrackId)
        && State() == old(State()).(audioTracks := audioTracks,
                                    settings := SettingsOrDefault(GetRecord(svc.stores, AmplifierSettingsStore, SingletonId)),
                                    micPermissionGranted := old(svc.GetMicPermissionGranted()))
    {
      var micGranted := svc.GetMicPermissionGranted();
      var tracks := svc.GetAll(AudioTracks);
      if tracks.None? {
        return;
      }
      var stored := svc.Get(AmplifierSettingsStore, SingletonId);
      if stored.None? {
        assert false;
        return;
      }
      Show(tracks.value, stored.value, micGranted);
    }

    method Show(recs: seq<Record>, stored: Option<Record>, micGranted: bool)
      requires Valid() && WellFormed(svc.stores) && AudioTracks in svc.stores
      requires IsListing(recs, svc.stores[AudioTracks])
      modifies this
      ensures Valid()
      ensures Shows(audioTracks, svc.stores[AudioTracks], AsAudioTrack, TrackId)
      ensures State() == old(State()).(audioTracks := audioTracks, settings := SettingsOrDefault(stored),
                                      micPermissionGranted := micGranted)
    {
      TracksShown(recs, svc.stores);
      audioTracks := Collect(recs, AsAudioTrack);
      settings := SettingsOrDefault(stored);
      micPermissionGranted := micGranted;
    }

    /** The persistence effect: the settings are written under `'singleton'`
        (not awaited, so a failure is ignored). */
    method PersistSettings()
      requires Valid()
      modifies svc
      ensures Valid()
      ensures old(svc.CanOpen()) ==>
        svc.stores == PutRecord(old(svc.OpenStores()), AmplifierSettingsStore, AmplifierRecord(SingletonId, settings))
      ensures !old(svc.CanOpen()) ==> unchanged(svc)
    {
      var _ := svc.Put(AmplifierSettingsStore, AmplifierRecord(SingletonId, settings));
    }

    /** `handleFileChange`: a picked file that could be read is stored as a
        new track under `id`, appended to the tracks and put in the slot; no
        file, an unreadable file or a failing write changes nothing. */
    method FileChanged(slot: nat, file: Option<PickedFile>, id: string)
      requires Valid() && slot < |settings.activeTracks|
      modifies this, svc
      ensures Valid()
      ensures file.None? || file.value.dataUrl.None? || !old(svc.CanOpen()) ==> unchanged(this) && unchanged(svc)
      ensures file.Some? && file.value.dataUrl.Some? && old(svc.CanOpen()) ==>
        var t := AudioTrack(id, file.value.name, file.value.dataUrl.value, file.value.mimeType);
        && svc.stores == PutRecord(old(svc.OpenStores()), AudioTracks, AudioTrackRecord(t))
        && State() == old(State()).(audioTracks := old(audioTracks) + [t],
                                    settings := WithSlot(old(settings), slot, Some(id)))
    {
      if file.None? || file.value.dataUrl.None? {
        return;
      }
      var t := AudioTrack(id, file.value.name, file.value.dataUrl.value, file.value.mimeType);
      var ok := svc.Put(AudioTracks, AudioTrackRecord(t));
      if !ok {
        return;
      }
      audioTracks := audioTracks + [t];
      settings := WithSlot(settings, slot, Some(id));
    }

    /** `handleRemoveTrack`: empties a filled slot; the track stays in the
        list and in storage. An empty slot is left alone. */
    method RemoveTrack(slot: nat)
      requires Valid() && slot < |settings.activeTracks|
      modifies this
      ensures Valid()
      ensures !Filled(old(settings.activeTracks[slot])) ==> unchanged(this)
      ensures Filled(old(settings.activeTracks[slot])) ==>
        State() == old(State()).(settings := WithSlot(old(settings), slot, None))
    {
      if Filled(settings.activeTracks[slot]) {
        settings := WithSlot(settings, slot, None);
      }
    }

    /** `handleSlotTrackChange`: puts an existing track in the slot. */
    method SlotTrackChanged(slot: nat, trackId: string)
      requires Valid() && slot < |settings.activeTracks|
      modifies this
      ensures Valid()
      ensures State() == old(State()).(settings := WithSlot(old(settings), slot, Some(trackId)))
    {
      settings := WithSlot(settings, slot, Some(trackId));
    }

    /** `togglePlayback`. */
    method TogglePlayback()
      requires Valid()
      modifies this
      ensures Valid()
      ensures State() == old(State()).(isPlaying := !old(isPlaying))
    {
      isPlaying := !isPlaying;
    }

    method AuraExpansionChanged(v: int)
      requires Valid()
      modifies this
      ensures Valid()
      ensures State() == old(State()).(settings := old(settings).(auraExpansion := v))
    {
      settings := settings.(auraExpansion := v);
    }

    method FrequencyFieldChanged(v: int)
      requires Valid()
      modifies this
      ensures Valid()
      ensures State() == old(State()).(settings := old(settings).(frequencyField := v))
    {
      settings := settings.(frequencyField := v);
    }

    /** `requestMic`: the permission prompt's answer, which
        `requestMicrophonePermission` also stores as the flag. */
    method RequestMic(granted: bool)
      requires Valid()
      modifies this, svc.ls
      ensures Valid()
      ensures State() == old(State()).(micPermissionGranted := granted)
      ensures svc.ls.items == if svc.ls.available then old(svc.ls.items)[MicPermissionKey := FlagString(granted)] else old(svc.ls.items)
      ensures svc.ls.available ==> svc.GetMicPermissionGranted() == granted
    {
      svc.SetMicPermissionGranted(granted);
      micPermissionGranted := granted;
    }

    /** One frame of `drawWaveform`: the level is computed from the
        analyser's time-domain bytes (the analyser always has bins). */
    method DrawWaveform(data: array<byte>)
      requires Valid() && data.Length > 0
      modifies this
      ensures Valid()
      ensures State() == old(State()).(micInputLevel := InputLevel(data[..]))
    {
      var total := 0;
      var i := 0;
      while i < data.Length
        invariant 0 <= i <= data.Length
        invariant total == SumDeviation(data[..i])
      {
        assert data[..i + 1][..i] == data[..i];
        total := total + Deviation(data[i]);
        i := i + 1;
      }
      assert data[..i] == data[..];
      var mean := (total as real / 128.0) / (data.Length as real);
      micInputLevel := Min(100, Round(mean * 200.0));
    }

    /** The drawing effect: with nothing playing and no microphone stream
        the level drops to 0. */
    method DrawingEffect(micStreamOpen: bool)
      requires Valid()
      modifies this
      ensures Valid()
      ensures isPlaying || micStreamOpen ==> unchanged(this)
      ensures !isPlaying && !micStreamOpen ==> State() == old(State()).(micInputLevel := 0)
    {
      if !isPlaying && !micStreamOpen {
        micInputLevel := 0;
      }
    }

    /** Mounting as written: both effects start together, and the
        persistence effect's write of the initial defaults is queued before
        `loadInitialData` reads the settings back, so whatever was stored is
        replaced by the defaults before it is read. */
    method MountAsWritten()
      requires Valid() && settings == DefaultAmplifierSettings
      modifies this, svc
      ensures Valid()
      ensures old(svc.CanOpen()) ==> settings == DefaultAmplifierSettings
      ensures old(svc.CanOpen()) ==>
        GetRecord(svc.stores, AmplifierSettingsStore, SingletonId) == Some(AmplifierRecord(SingletonId, DefaultAmplifierSettings))
    {
      PersistSettings();
      if old(svc.CanOpen()) {
        SingletonRoundTrip(old(svc.OpenStores()), DefaultAmplifierSettings);
      }
      LoadInitialData();
    }

    /** Mounting with the stored settings read before anything is written:
        the settings saved in an earlier visit come back, and the write that
        follows stores them unchanged. */
    method MountCorrected()
      requires Valid()
      modifies this, svc
      ensures Valid()
      ensures old(svc.CanOpen()) ==>
        settings == SettingsOrDefault(GetRecord(old(svc.OpenStores()), AmplifierSettingsStore, SingletonId))
      ensures old(svc.CanOpen()) ==>
        SettingsOrDefault(GetRecord(svc.stores, AmplifierSettingsStore, SingletonId)) == settings
    {
      LoadInitialData();
      ghost var before := svc.stores;
      PersistSettings();
      if old(svc.CanOpen()) {
        SingletonRoundTrip(before, settings);
      }
    }
  }
}
