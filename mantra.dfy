/** Mantra siddhi: a counter of mantra repetitions. A session is started
    from a form (name, birth date and time, ritual, mantra text, target),
    counts repetitions from taps or detected voice onsets, ends by itself
    when the count reaches the target, and can be ended, reloaded (which
    makes it active again) or deleted. Sessions are listed newest first. */
module Mantra {
  import opened Common
  import opened Types
  import Constants
  import opened Lists
  import opened Storage

  const LastActiveKey: string := "mantraSiddhiLastActiveSessionId"
  /** The custom target the form falls back to. */
  const DefaultCustom: int := 100
  /** The mean frequency-bin magnitude a frame must exceed to count. */
  const OnsetThreshold: int := 30
  /** Milliseconds that must pass between two counted onsets. */
  const DebounceMs: int := 500
  const SessionNamePrefix: string := "Mantra Session "

  // ---------------------------------------------------------------------
  // Starting a session

  /** The target a start uses: the custom count when `Custom` is chosen. */
  function ResolvedTarget(required: int, custom: int): (r: int)
    ensures required == Custom ==> r == custom
    ensures required != Custom ==> r == required
  {
    if required == Custom then custom else required
  }

  /** Why `startNewSession` refuses to start. */
  datatype StartError = EmptyMantra | InvalidTarget

  /** The start checks, in the order the handler makes them. */
  function StartRejection(mantraText: string, target: int): (r: Option<StartError>)
    ensures r == Some(EmptyMantra) <==> IsBlank(mantraText)
    ensures r == Some(InvalidTarget) <==> !IsBlank(mantraText) && target <= 0
    ensures r.None? <==> !IsBlank(mantraText) && target > 0
  {
    if IsBlank(mantraText) then Some(EmptyMantra)
    else if target <= 0 then Some(InvalidTarget)
    else None
  }

  /** `name.trim() || \`Mantra Session ${date}\``, the date label being the
      locale's rendering of the relevant day. */
  function SessionName(name: string, dateLabel: string): (r: string)
    ensures !IsBlank(name) ==> r == Trim(name)
    ensures IsBlank(name) ==> r == SessionNamePrefix + dateLabel
  {
    OrElse(Trim(name), SessionNamePrefix + dateLabel)
  }

  /** The session form: the fields a session is started from, and the
      target select with its custom count. */
  datatype Form = Form(
    name: string,
    dob: string,
    tob: string,
    ritualDescription: string,
    mantraText: string,
    requiredRepetitions: int,
    customRepetitions: int)

  const EmptyForm: Form := Form("", "", "", "", "", TenThousandEight, DefaultCustom)

  /** The target a form asks for. */
  function Target(f: Form): int {
    ResolvedTarget(f.requiredRepetitions, f.customRepetitions)
  }

  /** One change to the form. A custom count that does not parse (`NaN`)
      arrives as `None`. */
  datatype FormEdit =
    | NameEdit(text: string)
    | DobEdit(text: string)
    | TobEdit(text: string)
    | RitualEdit(text: string)
    | MantraEdit(text: string)
    | TargetEdit(target: int)
    | CustomEdit(parsed: Option<int>)

  /** The form after one edit; `parseInt(value) || 0` makes an unparsable
      custom count 0. */
  function Edited(f: Form, e: FormEdit): (r: Form)
    ensures e.NameEdit? ==> r == f.(name := e.text)
    ensures e.DobEdit? ==> r == f.(dob := e.text)
    ensures e.TobEdit? ==> r == f.(tob := e.text)
    ensures e.RitualEdit? ==> r == f.(ritualDescription := e.text)
    ensures e.MantraEdit? ==> r == f.(mantraText := e.text)
    ensures e.TargetEdit? ==> r == f.(requiredRepetitions := e.target)
    ensures e.CustomEdit? && e.parsed.Some? ==> r == f.(customRepetitions := e.parsed.value)
    ensures e.CustomEdit? && e.parsed.None? ==> r == f.(customRepetitions := 0)
  {
    match e
    case NameEdit(v) => f.(name := v)
    case DobEdit(v) => f.(dob := v)
    case TobEdit(v) => f.(tob := v)
    case RitualEdit(v) => f.(ritualDescription := v)
    case MantraEdit(v) => f.(mantraText := v)
    case TargetEdit(v) => f.(requiredRepetitions := v)
    case CustomEdit(v) => f.(customRepetitions := if v.Some? then v.value else 0)
  }

  /** The session `startNewSession` creates from the form. */
  function NewSession(id: string, f: Form, now: int, dateLabel: string): (r: MantraSession)
    ensures r.id == id && r.startedAt == now && r.requiredRepetitions == Target(f)
    ensures r.currentRepetitions == 0 && r.isActive && r.log == [] && r.completedAt.None?
    ensures r.name == SessionName(f.name, dateLabel) && r.mantraText == Trim(f.mantraText)
    ensures r.dateOfBirth == NonEmpty(f.dob) && r.timeOfBirth == NonEmpty(f.tob)
    ensures r.ritualDescription == Trim(f.ritualDescription)
  {
    MantraSession(id, SessionName(f.name, dateLabel), NonEmpty(f.dob), NonEmpty(f.tob), Trim(f.ritualDescription),
                  Trim(f.mantraText), Target(f), 0, true, now, None, [])
  }

  /** A session that passed the start checks is not complete yet: it needs
      at least one repetition before its count reaches its target. */
  lemma StartedSessionIsOpen(id: string, f: Form, now: int, dateLabel: string)
    requires StartRejection(f.mantraText, Target(f)).None?
    ensures var x := NewSession(id, f, now, dateLabel);
      x.currentRepetitions < x.requiredRepetitions && !IsBlank(x.mantraText)
  {
    TrimIdempotent(f.mantraText);
  }

  /** The form a loaded session fills in: its own fields, with the custom
      count reset to 100 unless the stored target is the `Custom` sentinel. */
  function FormOf(x: MantraSession): (r: Form)
    ensures Target(r) == x.requiredRepetitions
    ensures r.name == x.name && r.mantraText == x.mantraText && r.ritualDescription == x.ritualDescription
    ensures r.dob == OrEmpty(x.dateOfBirth) && r.tob == OrEmpty(x.timeOfBirth)
    ensures r.customRepetitions == (if x.requiredRepetitions == Custom then Custom else DefaultCustom)
  {
    Form(x.name, OrEmpty(x.dateOfBirth), OrEmpty(x.timeOfBirth), x.ritualDescription, x.mantraText,
         x.requiredRepetitions, if x.requiredRepetitions == Custom then x.requiredRepetitions else DefaultCustom)
  }

  /** The active session with one more log entry from `channel`. */
  function Incremented(a: MantraSession, channel: Channel, now: int): (r: MantraSession)
    ensures r == a.(log := a.log + [LogEntry(now, channel)])
    ensures |r.log| == |a.log| + 1 && r.log[..|a.log|] == a.log
  {
    a.(log := a.log + [LogEntry(now, channel)])
  }

  /** The record `endSession` writes: no longer active, the final count,
      and the time it ended, whether or not the target was reached. */
  function Completed(a: MantraSession, reps: int, now: int): (r: MantraSession)
    ensures !r.isActive && r.currentRepetitions == reps && r.completedAt == Some(now)
    ensures r.(isActive := a.isActive, currentRepetitions := a.currentRepetitions, completedAt := a.completedAt) == a
  {
    a.(isActive := false, currentRepetitions := reps, completedAt := Some(now))
  }

  /** After a tap reaches the target as the code runs it, the session
      stored under its id is the auto-saved one: still active, with the end
      time it had before, and with the final log entry. The ended record,
      which went into the list, lacks that entry. */
  lemma CompletionLeftActive(db: Db, p: MantraSession, channel: Channel, now: int, f: Form, n: int, dateLabel: string)
    requires MantraSessions in db && p.isActive
    ensures var u := Saved(Incremented(p, channel, now), f, n, dateLabel);
      var stored := PutRecord(PutRecord(db, MantraSessions, SessionRecord(Completed(p, n, now))), MantraSessions, SessionRecord(u));
      && AsSession(stored[MantraSessions][p.id]) == Some(u)
      && u.isActive && u.completedAt == p.completedAt && u.log == p.log + [LogEntry(now, channel)]
    ensures Completed(p, n, now).log == p.log
  {
  }

  /** When the tap that reaches the target ends the updated session, the
      session stored under its id has ended at that time with the final
      count and holds every log entry. */
  lemma CompletionStoredEnded(db: Db, p: MantraSession, channel: Channel, now: int, n: int)
    requires MantraSessions in db
    ensures var c := Completed(Incremented(p, channel, now), n, now);
      var stored := PutRecord(db, MantraSessions, SessionRecord(c));
      && AsSession(stored[MantraSessions][p.id]) == Some(c)
      && !c.isActive && c.completedAt == Some(now) && c.currentRepetitions == n
      && c.log == p.log + [LogEntry(now, channel)]
  {
  }

  /** The count `endSession` saves: the final count when given, otherwise
      the current one. */
  function FinalCount(finalRepetitions: Option<int>, current: int): int {
    if finalRepetitions.Some? then finalRepetitions.value else current
  }

  /** What the auto-save effect writes for the active session: the form's
      fields and target and the current count, on top of the session. */
  function Saved(a: MantraSession, f: Form, reps: int, dateLabel: string): (r: MantraSession)
    ensures r.id == a.id && r.startedAt == a.startedAt && r.log == a.log
    ensures r.isActive == a.isActive && r.completedAt == a.completedAt
    ensures r.name == SessionName(f.name, dateLabel) && r.mantraText == Trim(f.mantraText)
    ensures r.requiredRepetitions == Target(f) && r.currentRepetitions == reps
    ensures r.dateOfBirth == NonEmpty(f.dob) && r.timeOfBirth == NonEmpty(f.tob)
    ensures r.ritualDescription == Trim(f.ritualDescription)
  {
    a.(name := SessionName(f.name, dateLabel), dateOfBirth := NonEmpty(f.dob), timeOfBirth := NonEmpty(f.tob),
       ritualDescription := Trim(f.ritualDescription), mantraText := Trim(f.mantraText),
       requiredRepetitions := Target(f), currentRepetitions := reps)
  }

  /** A session whose text fields are already trimmed, whose name is not
      blank and whose optional fields are never empty strings comes back
      unchanged when it is loaded into the form and auto-saved at once. */
  lemma LoadThenSaveKeepsSession(x: MantraSession, dateLabel: string)
    requires x.name == Trim(x.name) && !IsBlank(x.name)
    requires x.mantraText == Trim(x.mantraText) && x.ritualDescription == Trim(x.ritualDescription)
    requires x.dateOfBirth != Some("") && x.timeOfBirth != Some("")
    ensures Saved(x, FormOf(x), x.currentRepetitions, dateLabel) == x
  {
    OptionalRoundTrip("", x.dateOfBirth);
    OptionalRoundTrip("", x.timeOfBirth);
  }

  // ---------------------------------------------------------------------
  // Voice onsets

  /** The sum of a frame's frequency-bin magnitudes. */
  function FrameSum(data: seq<byte>): (r: int)
    ensures 0 <= r <= 255 * |data|
  {
    if data == [] then 0 else FrameSum(data[..|data| - 1]) + data[|data| - 1] as int
  }

  /** `average > 30 && currentTime - lastPeakTime > 500`. */
  predicate IsOnset(sum: int, len: nat, now: int, lastPeak: int)
    requires len > 0
  {
    sum as real / len as real > OnsetThreshold as real && now - lastPeak > DebounceMs
  }

  /** The onset rule in whole numbers: the bins sum to more than 30 per bin,
      and more than 500 ms have passed. */
  lemma OnsetInIntegers(sum: int, len: nat, now: int, lastPeak: int)
    requires len > 0
    ensures IsOnset(sum, len, now, lastPeak) <==> sum > OnsetThreshold * len && now - lastPeak > DebounceMs
  {
    var n := len as real;
    var avg := sum as real / n;
    assert avg * n == sum as real;
    if sum > OnsetThreshold * len {
      MeanAbove(sum as real, n, 30.0);
    } else {
      MeanAtMost(sum as real, n, 30.0);
    }
  }

  lemma MeanAbove(s: real, n: real, t: real)
    requires n > 0.0 && s > t * n
    ensures s / n > t
  {
  }

  lemma MeanAtMost(s: real, n: real, t: real)
    requires n > 0.0 && s <= t * n
    ensures s / n <= t
  {
  }

  /** A frame whose bins are all 30 or quieter never counts. */
  lemma QuietFrameNeverCounts(data: seq<byte>, now: int, lastPeak: int)
    requires |data| > 0 && forall i :: 0 <= i < |data| ==> data[i] as int <= OnsetThreshold
    ensures !IsOnset(FrameSum(data), |data|, now, lastPeak)
  {
    QuietSum(data);
    OnsetInIntegers(FrameSum(data), |data|, now, lastPeak);
  }

  lemma {:induction false} QuietSum(data: seq<byte>)
    requires forall i :: 0 <= i < |data| ==> data[i] as int <= OnsetThreshold
    ensures FrameSum(data) <= OnsetThreshold * |data|
  {
    if data != [] {
      QuietSum(data[..|data| - 1]);
    }
  }

  /** The analyser's `fftSize`: the length of the frame `onaudioprocess`
      allocates. */
  const FftSize: nat := 256

  /** The analyser's `frequencyBinCount`, half of `fftSize`: the entries
      `getByteFrequencyData` fills; the rest of the frame stays 0. */
  const BinCount: nat := 128

  /** The frame `onaudioprocess` sums has `fftSize` entries but only
      `frequencyBinCount` filled bins, so the mean is taken over twice as
      many entries as there are bins: an onset needs the filled bins to
      average more than 60. */
  lemma AnalyserFrameOnset(data: seq<byte>, now: int, lastPeak: int)
    requires |data| == FftSize && forall i :: BinCount <= i < FftSize ==> data[i] == 0
    ensures IsOnset(FrameSum(data), |data|, now, lastPeak) <==>
      FrameSum(data[..BinCount]) > 2 * OnsetThreshold * BinCount && now - lastPeak > DebounceMs
  {
    ZeroTailSum(data, BinCount);
    OnsetInIntegers(FrameSum(data), |data|, now, lastPeak);
  }

  /** Zero entries after position `k` add nothing to a frame's sum. */
  lemma {:induction false} ZeroTailSum(data: seq<byte>, k: nat)
    requires k <= |data| && forall i :: k <= i < |data| ==> data[i] == 0
    ensures FrameSum(data) == FrameSum(data[..k])
  {
    if |data| == k {
      assert data[..k] == data;
    } else {
      var front := data[..|data| - 1];
      assert front[..k] == data[..k];
      ZeroTailSum(front, k);
    }
  }

  // ---------------------------------------------------------------------
  // The session list

  function StartedAt(s: MantraSession): int { s.startedAt }

  function SessionId(s: MantraSession): string { s.id }

  predicate HasSession(l: seq<MantraSession>, id: string) {
    exists i :: 0 <= i < |l| && l[i].id == id
  }

  /** The list is newest first by start time, with unique ids. */
  predicate Ordered(l: seq<MantraSession>) {
    SortedDesc(l, StartedAt) && DistinctBy(l, SessionId)
  }

  /** The list holds a session with `a`'s id and start time. */
  predicate Listed(l: seq<MantraSession>, a: MantraSession) {
    exists i :: 0 <= i < |l| && l[i].id == a.id && l[i].startedAt == a.startedAt
  }

  /** `[newSession, ...prev].sort((a, b) => b.startedAt - a.startedAt)`. */
  function WithSession(prev: seq<MantraSession>, x: MantraSession): (r: seq<MantraSession>)
    requires Ordered(prev) && !HasSession(prev, x.id)
    ensures Ordered(r) && multiset(r) == multiset(prev) + multiset{x}
    ensures Listed(r, x)
    ensures forall a :: Listed(prev, a) ==> Listed(r, a)
  {
    SortDescSorted([x] + prev, StartedAt);
    PrependKeepsDistinct(x, prev, SessionId);
    var r := SortDesc([x] + prev, StartedAt);
    PermutationKeepsDistinct([x] + prev, r, SessionId);
    assert x in multiset(r);
    forall a | Listed(prev, a) ensures Listed(r, a) {
      var i :| 0 <= i < |prev| && prev[i].id == a.id && prev[i].startedAt == a.startedAt;
      assert prev[i] in multiset(r);
    }
    r
  }

  /** `prev.map(s => s.id === x.id ? x : s)`. */
  function ReplaceSession(l: seq<MantraSession>, x: MantraSession): seq<MantraSession> {
    ReplaceById(l, SessionId, x.id, x)
  }

  /** Rewriting a listed session by a record with the same id and start
      time keeps the list ordered, lists the same sessions, and holds the
      new record. */
  lemma ReplaceSessionKeeps(l: seq<MantraSession>, x: MantraSession)
    requires Ordered(l) && Listed(l, x)
    ensures var r := ReplaceSession(l, x);
      && Ordered(r) && x in r
      && (forall a :: Listed(r, a) <==> Listed(l, a))
  {
    var i :| 0 <= i < |l| && l[i].id == x.id && l[i].startedAt == x.startedAt;
    forall y | y in l && SessionId(y) == x.id ensures StartedAt(y) == StartedAt(x) {
      var j :| 0 <= j < |l| && l[j] == y;
      assert j == i;
    }
    ReplaceKeepsOrder(l, SessionId, x.id, x, StartedAt);
    var r := ReplaceSession(l, x);
    assert forall k :: 0 <= k < |l| ==> r[k].id == l[k].id && r[k].startedAt == l[k].startedAt;
    assert r[i] == x;
  }

  /** `prev.filter(s => s.id !== id)`. */
  function WithoutSession(l: seq<MantraSession>, id: string): seq<MantraSession> {
    Filter(l, (s: MantraSession) => s.id != id)
  }

  /** Removing a session keeps the list ordered and drops exactly that id. */
  lemma RemoveSessionKeeps(l: seq<MantraSession>, id: string)
    requires Ordered(l)
    ensures var r := WithoutSession(l, id);
      && Ordered(r) && !HasSession(r, id)
      && (forall a: MantraSession :: a.id != id ==> (Listed(r, a) <==> Listed(l, a)))
  {
    var keep := (s: MantraSession) => s.id != id;
    var r := Filter(l, keep);
    assert r == WithoutSession(l, id);
    FilterKeepsSorted(l, keep, StartedAt);
    FilterKeepsDistinct(l, keep, SessionId);
    forall a: MantraSession | a.id != id ensures Listed(r, a) <==> Listed(l, a) {
      if Listed(l, a) {
        var i :| 0 <= i < |l| && l[i].id == a.id && l[i].startedAt == a.startedAt;
        assert l[i] in r;
      }
      if Listed(r, a) {
        var i :| 0 <= i < |r| && r[i].id == a.id && r[i].startedAt == a.startedAt;
        assert r[i] in l;
      }
    }
  }

  /** Sessions read from storage, newest first. */
  function LoadedSessions(recs: seq<Record>): seq<MantraSession> {
    SortDesc(Collect(recs, AsSession), StartedAt)
  }

  lemma SessionsShown(recs: seq<Record>, db: Db)
    requires WellFormed(db) && MantraSessions in db && IsListing(recs, db[MantraSessions])
    ensures Ordered(LoadedSessions(recs))
    ensures Shows(LoadedSessions(recs), db[MantraSessions], AsSession, SessionId)
  {
    var m := db[MantraSessions];
    assert forall k :: k in m ==> AsSession(m[k]).Some? && SessionId(AsSession(m[k]).value) == k;
    SortedListing(recs, m, AsSession, SessionId, StartedAt);
  }

  /** The session the "last active" key names, if it is listed and still
      marked active. */
  function RestoredSession(l: seq<MantraSession>, stored: Option<string>): (r: Option<MantraSession>)
    ensures r.Some? ==> stored == Some(r.value.id) && r.value.id != "" && r.value in l && r.value.isActive
    ensures r.None? <==> stored.None? || stored.value == "" || !HasSession(l, stored.value) ||
                         !Find(l, SessionId, stored.value).value.isActive
  {
    if stored.None? || stored.value == "" then None
    else
      var found := Find(l, SessionId, stored.value);
      if found.Some? && found.value.isActive then found else None
  }

  // ---------------------------------------------------------------------
  // The component

  class MantraSiddhi {
    var form: Form
    var activeSession: Option<MantraSession>
    var currentRepetitions: int
    var mantraSessions: seq<MantraSession>
    var micPermissionGranted: bool
    /** Whether a microphone stream feeds the onset detector. */
    var listening: bool
    var lastPeakTime: int
    const svc: StorageService

    /** The sessions are newest first with unique ids; an active session is
        marked active and listed; with none the count is 0. */
    ghost predicate Valid()
      reads this, svc
    {
      && svc.Valid()
      && Ordered(mantraSessions)
      && (activeSession.Some? ==> activeSession.value.isActive && Listed(mantraSessions, activeSession.value))
      && (activeSession.None? ==> currentRepetitions == 0)
    }

    /** `x` fills the form and is the active session, counting from its
        stored count; a session that had ended is active again. */
    predicate Loaded(x: MantraSession)
      reads this
    {
      form == FormOf(x) && activeSession == Some(x.(isActive := true)) && currentRepetitions == x.currentRepetitions
    }

    /** The state `endSession` leaves after writing the ended record `c`:
        the record is stored and replaces the session in the list, nothing
        is active, the count is 0, voice detection is off and the key is
        forgotten. */
    twostate predicate Ended(c: MantraSession)
      requires old(svc.Valid()) && old(svc.CanOpen())
      reads this, svc, svc.ls
    {
      && svc.stores == PutRecord(old(svc.OpenStores()), MantraSessions, SessionRecord(c))
      && mantraSessions == ReplaceSession(old(mantraSessions), c) && c in mantraSessions
      && activeSession.None? && currentRepetitions == 0 && !listening
      && Forgotten()
    }

    /** The session `stored` names is resumed if it is listed and still
        active; otherwise the form, the active session and the count are
        as they were. */
    twostate predicate RestoredFrom(stored: Option<string>)
      reads this
    {
      match RestoredSession(mantraSessions, stored)
      case None => unchanged(this`form, this`activeSession, this`currentRepetitions)
      case Some(x) => Loaded(x)
    }

    /** The "last active" key names `id` (when storage is available). */
    twostate predicate Remembered(id: string)
      reads svc.ls
    {
      svc.ls.items == (if svc.ls.available then old(svc.ls.items)[LastActiveKey := id] else old(svc.ls.items))
    }

    /** The "last active" key is removed (when storage is available). */
    twostate predicate Forgotten()
      reads svc.ls
    {
      svc.ls.items == (if svc.ls.available then old(svc.ls.items) - {LastActiveKey} else old(svc.ls.items))
    }

    constructor (svc: StorageService)
      requires svc.Valid()
      ensures Valid() && this.svc == svc
      ensures form == EmptyForm && activeSession == None && currentRepetitions == 0 && mantraSessions == []
      ensures !micPermissionGranted && !listening && lastPeakTime == 0
    {
      form := EmptyForm;
      activeSession := None;
      currentRepetitions := 0;
      mantraSessions := [];
      micPermissionGranted := false;
      listening := false;
      lastPeakTime := 0;
      this.svc := svc;
    }

    /** `loadInitialData`: the sessions newest first and the stored
        permission flag (`hasMicrophonePermission`); the session named by the "last active" key is resumed only if
        it is listed and still marked active (the key is not rewritten). A
        failing read changes nothing. */
    method LoadInitialData()
      requires Valid() && activeSession.None?
      modifies this, svc
      ensures Valid()
      ensures !old(svc.CanOpen()) ==> unchanged(this) && unchanged(svc)
      ensures old(svc.CanOpen()) ==>
        && svc.isOpen && svc.stores == old(svc.OpenStores())
        && Shows(mantraSessions, svc.stores[MantraSessions], AsSession, SessionId)
        && micPermissionGranted == old(svc.GetMicPermissionGranted())
        && unchanged(this`listening, this`lastPeakTime)
        && RestoredFrom(svc.ls.GetItem(LastActiveKey))
    {
      var micGranted := svc.GetMicPermissionGranted();
      var saved := svc.GetAll(MantraSessions);
      if saved.None? {
        return;
      }
      Present(saved.value, micGranted);
    }

    /** The listed sessions are shown and the remembered one resumed. */
    method Present(recs: seq<Record>, micGranted: bool)
      requires Valid() && activeSession.None? && WellFormed(svc.stores) && MantraSessions in svc.stores
      requires IsListing(recs, svc.stores[MantraSessions])
      modifies this
      ensures Valid()
      ensures Shows(mantraSessions, svc.stores[MantraSessions], AsSession, SessionId)
      ensures micPermissionGranted == micGranted
      ensures RestoredFrom(svc.ls.GetItem(LastActiveKey))
      ensures unchanged(this`listening, this`lastPeakTime)
    {
      Show(recs, micGranted);
      Restore();
    }

    /** Resumes the session the "last active" key names, if any. */
    method Restore()
      requires Valid() && activeSession.None?
      modifies this
      ensures unchanged(this`mantraSessions, this`micPermissionGranted, this`listening, this`lastPeakTime)
      ensures Valid() && RestoredFrom(svc.ls.GetItem(LastActiveKey))
    {
      var restored := RestoredSession(mantraSessions, svc.ls.GetItem(LastActiveKey));
      if restored.Some? {
        Resume(restored.value);
      }
    }

    method Show(recs: seq<Record>, micGranted: bool)
      requires Valid() && activeSession.None? && WellFormed(svc.stores) && MantraSessions in svc.stores
      requires IsListing(recs, svc.stores[MantraSessions])
      modifies this
      ensures unchanged(this`form, this`activeSession, this`currentRepetitions, this`listening, this`lastPeakTime)
      ensures Valid()
      ensures mantraSessions == LoadedSessions(recs)
      ensures Shows(mantraSessions, svc.stores[MantraSessions], AsSession, SessionId)
      ensures micPermissionGranted == micGranted
    {
      SessionsShown(recs, svc.stores);
      mantraSessions := LoadedSessions(recs);
      micPermissionGranted := micGranted;
    }

    /** Puts a listed session's fields into the form and makes it the
        active session. */
    method Resume(x: MantraSession)
      requires Valid() && x in mantraSessions
      modifies this
      ensures unchanged(this`mantraSessions, this`micPermissionGranted, this`listening, this`lastPeakTime)
      ensures Valid() && Loaded(x)
    {
      ghost var i :| 0 <= i < |mantraSessions| && mantraSessions[i] == x;
      assert Listed(mantraSessions, x.(isActive := true));
      form := FormOf(x);
      activeSession := Some(x.(isActive := true));
      currentRepetitions := x.currentRepetitions;
    }

    /** A change to one of the form's inputs. */
    method FormChanged(e: FormEdit)
      requires Valid()
      modifies this
      ensures unchanged(this`activeSession, this`currentRepetitions, this`mantraSessions, this`micPermissionGranted, this`listening, this`lastPeakTime)
      ensures Valid() && form == Edited(old(form), e)
    {
      form := Edited(form, e);
    }

    /** `startNewSession`: refused for a blank mantra, then for a target of
        0 or less; otherwise a new session under a fresh id is written, joins
        the list newest first, becomes active with a count of 0 and is
        remembered. A failing write stops the handler. */
    method StartNewSession(id: string, now: int, dateLabel: string) returns (rejected: Option<StartError>)
      requires Valid()
      requires GetRecord(svc.OpenStores(), MantraSessions, id).None? && !HasSession(mantraSessions, id)
      modifies this, svc, svc.ls
      ensures Valid()
      ensures rejected == StartRejection(old(form).mantraText, Target(old(form)))
      ensures rejected.Some? || !old(svc.CanOpen()) ==> unchanged(this) && unchanged(svc) && unchanged(svc.ls)
      ensures rejected.None? && old(svc.CanOpen()) ==>
        var x := NewSession(id, old(form), now, dateLabel);
        && svc.stores == PutRecord(old(svc.OpenStores()), MantraSessions, SessionRecord(x))
        && mantraSessions == WithSession(old(mantraSessions), x)
        && activeSession == Some(x) && currentRepetitions == 0
        && unchanged(this`form, this`micPermissionGranted, this`listening, this`lastPeakTime)
        && Remembered(id)
    {
      rejected := StartRejection(form.mantraText, Target(form));
      if rejected.Some? {
        return;
      }
      var x := NewSession(id, form, now, dateLabel);
      var ok := svc.Put(MantraSessions, SessionRecord(x));
      if !ok {
        return;
      }
      Begin(x);
    }

    method Begin(x: MantraSession)
      requires Valid() && !HasSession(mantraSessions, x.id) && x.isActive
      modifies this, svc.ls
      ensures unchanged(this`form, this`micPermissionGranted, this`listening, this`lastPeakTime)
      ensures Valid()
      ensures mantraSessions == WithSession(old(mantraSessions), x)
      ensures activeSession == Some(x) && currentRepetitions == 0
      ensures Remembered(x.id)
    {
      Activate(x);
      svc.ls.SetItem(LastActiveKey, x.id);
    }

    /** A new session joins the list and becomes the active one. */
    method Activate(x: MantraSession)
      requires Valid() && !HasSession(mantraSessions, x.id) && x.isActive
      modifies this
      ensures unchanged(this`form, this`micPermissionGranted, this`listening, this`lastPeakTime)
      ensures Valid()
      ensures mantraSessions == WithSession(old(mantraSessions), x)
      ensures activeSession == Some(x) && currentRepetitions == 0
    {
      mantraSessions := WithSession(mantraSessions, x);
      activeSession := Some(x);
      currentRepetitions := 0;
    }

    /** `endSession`: with no active session nothing happens. Otherwise voice
        detection stops, and the session is written as ended, with the final
        count (the given one, else the current one) and the end time; then
        it is replaced in the list, nothing is active, the count is 0 and
        the key is forgotten. A failing write stops the handler after voice
        detection has stopped. */
    method EndSession(finalRepetitions: Option<int>, now: int) returns (ended: bool)
      requires Valid()
      modifies this, svc, svc.ls
      ensures Valid()
      ensures ended <==> old(activeSession).Some? && old(svc.CanOpen())
      ensures old(activeSession).None? ==> unchanged(this) && unchanged(svc) && unchanged(svc.ls)
      ensures old(activeSession).Some? ==>
        !listening && unchanged(this`form, this`micPermissionGranted, this`lastPeakTime)
      ensures old(activeSession).Some? && !old(svc.CanOpen()) ==>
        && unchanged(this`activeSession, this`currentRepetitions, this`mantraSessions)
        && unchanged(svc) && unchanged(svc.ls)
      ensures ended ==> Ended(Completed(old(activeSession).value, FinalCount(finalRepetitions, old(currentRepetitions)), now))
    {
      if activeSession.None? {
        return false;
      }
      var c := Completed(activeSession.value, FinalCount(finalRepetitions, currentRepetitions), now);
      ended := IssueEnd(c);
      if !ended {
        return;
      }
      Close(c);
    }

    method Close(c: MantraSession)
      requires Valid() && activeSession.Some? && c.id == activeSession.value.id
      requires c.startedAt == activeSession.value.startedAt
      modifies this, svc.ls
      ensures unchanged(this`form, this`micPermissionGranted, this`listening, this`lastPeakTime)
      ensures Valid()
      ensures mantraSessions == ReplaceSession(old(mantraSessions), c) && c in mantraSessions
      ensures activeSession.None? && currentRepetitions == 0
      ensures Forgotten()
    {
      Retire(c);
      svc.ls.RemoveItem(LastActiveKey);
    }

    /** The ended record `c` replaces the active session in the list, and
        nothing is active. */
    method Retire(c: MantraSession)
      requires Valid() && activeSession.Some? && c.id == activeSession.value.id
      requires c.startedAt == activeSession.value.startedAt
      modifies this
      ensures unchanged(this`form, this`micPermissionGranted, this`listening, this`lastPeakTime)
      ensures Valid()
      ensures mantraSessions == ReplaceSession(old(mantraSessions), c) && c in mantraSessions
      ensures activeSession.None? && currentRepetitions == 0
    {
      ReplaceSessionKeeps(mantraSessions, c);
      mantraSessions := ReplaceSession(mantraSessions, c);
      activeSession := None;
      currentRepetitions := 0;
    }

    /** `incrementCounter`: with no active session nothing happens.
        Otherwise one log entry from `channel` is appended and the count
        rises by one; once it reaches the session's target the updated
        session ends with that count. This is the completion the code
        intends; `IncrementCounterAsWritten` is the one it performs. */
    method IncrementCounter(channel: Channel, now: int) returns (completed: bool)
      requires Valid()
      modifies this, svc, svc.ls
      ensures Valid()
      ensures unchanged(this`form, this`micPermissionGranted, this`lastPeakTime)
      ensures old(activeSession).None? ==> !completed && unchanged(this) && unchanged(svc) && unchanged(svc.ls)
      ensures old(activeSession).Some? ==>
        completed == (old(currentRepetitions) + 1 >= old(activeSession).value.requiredRepetitions)
      ensures old(activeSession).Some? && (!completed || !old(svc.CanOpen())) ==>
        && activeSession == Some(Incremented(old(activeSession).value, channel, now))
        && currentRepetitions == old(currentRepetitions) + 1
        && listening == (old(listening) && !completed)
        && unchanged(this`mantraSessions) && unchanged(svc) && unchanged(svc.ls)
      ensures old(activeSession).Some? && completed && old(svc.CanOpen()) ==>
        Ended(Completed(Incremented(old(activeSession).value, channel, now), old(currentRepetitions) + 1, now))
    {
      if activeSession.None? {
        return false;
      }
      completed := Tally(channel, now);
    }

    /** `incrementCounter` once a session is active. */
    method Tally(channel: Channel, now: int) returns (completed: bool)
      requires Valid() && activeSession.Some?
      modifies this, svc, svc.ls
      ensures Valid()
      ensures unchanged(this`form, this`micPermissionGranted, this`lastPeakTime)
      ensures completed == (old(currentRepetitions) + 1 >= old(activeSession).value.requiredRepetitions)
      ensures !completed || !old(svc.CanOpen()) ==>
        && activeSession == Some(Incremented(old(activeSession).value, channel, now))
        && currentRepetitions == old(currentRepetitions) + 1
        && listening == (old(listening) && !completed)
        && unchanged(this`mantraSessions) && unchanged(svc) && unchanged(svc.ls)
      ensures completed && old(svc.CanOpen()) ==>
        Ended(Completed(Incremented(old(activeSession).value, channel, now), old(currentRepetitions) + 1, now))
    {
      ghost var db := svc.OpenStores();
      Count(channel, now);
      assert svc.OpenStores() == db;
      completed := currentRepetitions >= activeSession.value.requiredRepetitions;
      if completed {
        var n := currentRepetitions;
        var _ := EndSession(Some(n), now);
        assert FinalCount(Some(n), n) == n;
      }
    }

    /** One more repetition of the active session, logged from `channel`. */
    method Count(channel: Channel, now: int)
      requires Valid() && activeSession.Some?
      modifies this`activeSession, this`currentRepetitions
      ensures Valid()
      ensures activeSession == Some(Incremented(old(activeSession).value, channel, now))
      ensures currentRepetitions == old(currentRepetitions) + 1
    {
      activeSession := Some(Incremented(activeSession.value, channel, now));
      currentRepetitions := currentRepetitions + 1;
    }

    /** `incrementCounter` as the code runs it, with the auto-save effect of
        the commit that follows. Below the target that is the increment and
        then the auto-save. At the target the `endSession` it calls is the
        one of the render before the tap: it builds the ended record from
        the session without the new log entry, stops voice detection and
        issues its write. The commit then runs the auto-save effect on the
        updated session, which is still active; its write is issued later
        and lands last. Only then does the rest of `endSession` run. */
    method IncrementCounterAsWritten(channel: Channel, now: int, dateLabel: string) returns (completed: bool)
      requires Valid()
      modifies this, svc, svc.ls
      ensures Valid()
      ensures unchanged(this`form, this`micPermissionGranted, this`lastPeakTime)
      ensures old(activeSession).None? ==> !completed && unchanged(this) && unchanged(svc) && unchanged(svc.ls)
      ensures old(activeSession).Some? ==>
        completed == (old(currentRepetitions) + 1 >= old(activeSession).value.requiredRepetitions)
      ensures old(activeSession).Some? && !completed ==>
        var w := Incremented(old(activeSession).value, channel, now);
        var u := Saved(w, old(form), old(currentRepetitions) + 1, dateLabel);
        && activeSession == Some(w) && currentRepetitions == old(currentRepetitions) + 1
        && mantraSessions == ReplaceSession(old(mantraSessions), u)
        && (old(svc.CanOpen()) ==> svc.stores == PutRecord(old(svc.OpenStores()), MantraSessions, SessionRecord(u)))
        && (!old(svc.CanOpen()) ==> unchanged(svc))
      ensures old(activeSession).Some? && completed && old(svc.CanOpen()) ==>
        var p, n := old(activeSession).value, old(currentRepetitions) + 1;
        var u := Saved(Incremented(p, channel, now), old(form), n, dateLabel);
        && svc.stores == PutRecord(PutRecord(old(svc.OpenStores()), MantraSessions, SessionRecord(Completed(p, n, now))),
                                   MantraSessions, SessionRecord(u))
        && mantraSessions == ReplaceSession(ReplaceSession(old(mantraSessions), u), Completed(p, n, now))
        && activeSession.None? && currentRepetitions == 0 && !listening && Forgotten()
      ensures old(activeSession).Some? && completed && !old(svc.CanOpen()) ==>
        var w := Incremented(old(activeSession).value, channel, now);
        var u := Saved(w, old(form), old(currentRepetitions) + 1, dateLabel);
        && activeSession == Some(w) && currentRepetitions == old(currentRepetitions) + 1 && !listening
        && mantraSessions == ReplaceSession(old(mantraSessions), u)
        && unchanged(svc) && unchanged(svc.ls)
    {
      if activeSession.None? {
        return false;
      }
      completed := currentRepetitions + 1 >= activeSession.value.requiredRepetitions;
      if completed {
        CompleteAsWritten(channel, now, dateLabel);
      } else {
        CountAndSave(channel, now, dateLabel);
      }
    }

    /** The tap that reaches the target, as the code runs it. */
    method CompleteAsWritten(channel: Channel, now: int, dateLabel: string)
      requires Valid() && activeSession.Some?
      modifies this, svc, svc.ls
      ensures Valid()
      ensures unchanged(this`form, this`micPermissionGranted, this`lastPeakTime)
      ensures old(svc.CanOpen()) ==>
        var p, n := old(activeSession).value, old(currentRepetitions) + 1;
        var u := Saved(Incremented(p, channel, now), old(form), n, dateLabel);
        && svc.stores == PutRecord(PutRecord(old(svc.OpenStores()), MantraSessions, SessionRecord(Completed(p, n, now))),
                                   MantraSessions, SessionRecord(u))
        && mantraSessions == ReplaceSession(ReplaceSession(old(mantraSessions), u), Completed(p, n, now))
        && activeSession.None? && currentRepetitions == 0 && !listening && Forgotten()
      ensures !old(svc.CanOpen()) ==>
        var w := Incremented(old(activeSession).value, channel, now);
        var u := Saved(w, old(form), old(currentRepetitions) + 1, dateLabel);
        && activeSession == Some(w) && currentRepetitions == old(currentRepetitions) + 1 && !listening
        && mantraSessions == ReplaceSession(old(mantraSessions), u)
        && unchanged(svc) && unchanged(svc.ls)
    {
      // The ended record's write succeeds exactly when the database opens.
      if svc.CanOpen() {
        CompleteOpen(channel, now, dateLabel);
      } else {
        CompleteClosed(channel, now, dateLabel);
      }
    }

    /** The completing tap when the ended record is written. */
    method CompleteOpen(channel: Channel, now: int, dateLabel: string)
      requires Valid() && activeSession.Some? && svc.CanOpen()
      modifies this, svc, svc.ls
      ensures Valid()
      ensures unchanged(this`form, this`micPermissionGranted, this`lastPeakTime)
      ensures var p, n := old(activeSession).value, old(currentRepetitions) + 1;
        var u := Saved(Incremented(p, channel, now), old(form), n, dateLabel);
        && svc.stores == PutRecord(PutRecord(old(svc.OpenStores()), MantraSessions, SessionRecord(Completed(p, n, now))),
                                   MantraSessions, SessionRecord(u))
        && mantraSessions == ReplaceSession(ReplaceSession(old(mantraSessions), u), Completed(p, n, now))
        && activeSession.None? && currentRepetitions == 0 && !listening && Forgotten()
    {
      var c := Completed(activeSession.value, currentRepetitions + 1, now);
      ghost var db := svc.OpenStores();
      ghost var items := svc.ls.items;
      var ok := IssueEnd(c);
      assert ok && svc.stores == PutRecord(db, MantraSessions, SessionRecord(c)) && svc.ls.items == items;
      SaveThenClose(c, channel, now, dateLabel);
    }

    /** The completing tap when the database cannot be opened: the ended
        record's write fails, but the increment and the auto-save's list
        rewrite still happen. */
    method CompleteClosed(channel: Channel, now: int, dateLabel: string)
      requires Valid() && activeSession.Some? && !svc.CanOpen()
      modifies this, svc, svc.ls
      ensures Valid()
      ensures unchanged(this`form, this`micPermissionGranted, this`lastPeakTime)
      ensures var w := Incremented(old(activeSession).value, channel, now);
        var u := Saved(w, old(form), old(currentRepetitions) + 1, dateLabel);
        && activeSession == Some(w) && currentRepetitions == old(currentRepetitions) + 1 && !listening
        && mantraSessions == ReplaceSession(old(mantraSessions), u)
        && unchanged(svc) && unchanged(svc.ls)
    {
      var c := Completed(activeSession.value, currentRepetitions + 1, now);
      var _ := IssueEnd(c);
      CountAndSave(channel, now, dateLabel);
    }

    /** Once the ended record `c` is written: the increment, the auto-save of
        the updated session, and the rest of `endSession`. */
    method SaveThenClose(c: MantraSession, channel: Channel, now: int, dateLabel: string)
      requires Valid() && activeSession.Some? && svc.isOpen
      requires c.id == activeSession.value.id && c.startedAt == activeSession.value.startedAt
      modifies this, svc, svc.ls
      ensures Valid()
      ensures unchanged(this`form, this`micPermissionGranted, this`lastPeakTime)
      ensures var u := Saved(Incremented(old(activeSession).value, channel, now), old(form), old(currentRepetitions) + 1, dateLabel);
        && svc.stores == PutRecord(old(svc.stores), MantraSessions, SessionRecord(u))
        && mantraSessions == ReplaceSession(ReplaceSession(old(mantraSessions), u), c)
        && activeSession.None? && currentRepetitions == 0 && listening == old(listening) && Forgotten()
    {
      CountAndSave(channel, now, dateLabel);
      Close(c);
    }

    /** The part of `endSession` before its `await`: voice detection stops
        and the write of the ended record `c` is issued. */
    method IssueEnd(c: MantraSession) returns (ok: bool)
      requires Valid()
      modifies this`listening, svc
      ensures Valid() && !listening
      ensures ok == old(svc.CanOpen())
      ensures ok ==> svc.isOpen && svc.stores == PutRecord(old(svc.OpenStores()), MantraSessions, SessionRecord(c))
      ensures !ok ==> unchanged(svc)
    {
      listening := false;
      ok := svc.Put(MantraSessions, SessionRecord(c));
    }

    /** An increment followed by the auto-save effect of its commit. */
    method CountAndSave(channel: Channel, now: int, dateLabel: string)
      requires Valid() && activeSession.Some?
      modifies this, svc
      ensures Valid()
      ensures unchanged(this`form, this`micPermissionGranted, this`listening, this`lastPeakTime)
      ensures var w := Incremented(old(activeSession).value, channel, now);
        var u := Saved(w, old(form), old(currentRepetitions) + 1, dateLabel);
        && activeSession == Some(w) && currentRepetitions == old(currentRepetitions) + 1
        && mantraSessions == ReplaceSession(old(mantraSessions), u)
        && (old(svc.CanOpen()) ==> svc.stores == PutRecord(old(svc.OpenStores()), MantraSessions, SessionRecord(u)))
        && (!old(svc.CanOpen()) ==> unchanged(svc))
    {
      ghost var db := svc.OpenStores();
      Count(channel, now);
      assert svc.OpenStores() == db;
      AutoSave(dateLabel);
    }

    /** `loadSession`: an unknown id changes nothing. Loading another
        session while one is active ends the active one first (a failing
        write stops the handler there). The loaded session becomes active
        even if it had ended, its count resumes, and it is remembered. */
    method LoadSession(id: string, now: int)
      requires Valid()
      modifies this, svc, svc.ls
      ensures Valid()
      ensures unchanged(this`micPermissionGranted, this`lastPeakTime)
      ensures !HasSession(old(mantraSessions), id) ==> unchanged(this) && unchanged(svc) && unchanged(svc.ls)
      ensures HasSession(old(mantraSessions), id) ==>
        Find(old(mantraSessions), SessionId, id).value in old(mantraSessions) &&
        Find(old(mantraSessions), SessionId, id).value.id == id
      ensures HasSession(old(mantraSessions), id) && Switching(old(activeSession), id) && !old(svc.CanOpen()) ==>
        && !listening && unchanged(this`form, this`activeSession, this`currentRepetitions, this`mantraSessions)
        && unchanged(svc) && unchanged(svc.ls)
      ensures HasSession(old(mantraSessions), id) && Switching(old(activeSession), id) && old(svc.CanOpen()) ==>
        var c := Completed(old(activeSession).value, old(currentRepetitions), now);
        && svc.stores == PutRecord(old(svc.OpenStores()), MantraSessions, SessionRecord(c))
        && mantraSessions == ReplaceSession(old(mantraSessions), c) && !listening
        && Loaded(Find(old(mantraSessions), SessionId, id).value) && Remembered(id)
      ensures HasSession(old(mantraSessions), id) && !Switching(old(activeSession), id) ==>
        && unchanged(this`mantraSessions, this`listening) && unchanged(svc)
        && Loaded(Find(old(mantraSessions), SessionId, id).value) && Remembered(id)
    {
      var found := Find(mantraSessions, SessionId, id);
      if found.None? {
        return;
      }
      var x := found.value;
      if activeSession.Some? && activeSession.value.id != id {
        var ended := EndSession(None, now);
        if !ended {
          return;
        }
        OthersSurviveReplace(old(mantraSessions), Completed(old(activeSession).value, old(currentRepetitions), now), x);
        Reopen(x);
        RemoveThenSet(old(svc.ls.items), LastActiveKey, id);
      } else {
        Reopen(x);
      }
    }

    /** Resuming a session and remembering it. */
    method Reopen(x: MantraSession)
      requires Valid() && x in mantraSessions
      modifies this, svc.ls
      ensures unchanged(this`mantraSessions, this`micPermissionGranted, this`listening, this`lastPeakTime)
      ensures Valid() && Loaded(x)
      ensures Remembered(x.id)
    {
      Resume(x);
      svc.ls.SetItem(LastActiveKey, x.id);
    }

    /** `deleteSession`: after confirmation the record is deleted and the
        session leaves the list; deleting the active session also clears it,
        resets the count and forgets the key. */
    method DeleteSession(id: string, confirmed: bool)
      requires Valid()
      modifies this, svc, svc.ls
      ensures Valid()
      ensures unchanged(this`form, this`micPermissionGranted, this`listening, this`lastPeakTime)
      ensures !confirmed || !old(svc.CanOpen()) ==> unchanged(this) && unchanged(svc) && unchanged(svc.ls)
      ensures confirmed && old(svc.CanOpen()) ==>
        && svc.stores == DeleteRecord(old(svc.OpenStores()), MantraSessions, id)
        && mantraSessions == WithoutSession(old(mantraSessions), id) && !HasSession(mantraSessions, id)
      ensures confirmed && old(svc.CanOpen()) && (old(activeSession).None? || old(activeSession).value.id != id) ==>
        unchanged(this`activeSession, this`currentRepetitions) && unchanged(svc.ls)
      ensures confirmed && old(svc.CanOpen()) && old(activeSession).Some? && old(activeSession).value.id == id ==>
        && activeSession.None? && currentRepetitions == 0
        && Forgotten()
    {
      if !confirmed {
        return;
      }
      var ok := svc.Delete(MantraSessions, id);
      if !ok {
        return;
      }
      Drop(id);
    }

    method Drop(id: string)
      requires Valid()
      modifies this, svc.ls
      ensures Valid()
      ensures mantraSessions == WithoutSession(old(mantraSessions), id) && !HasSession(mantraSessions, id)
      ensures unchanged(this`form, this`micPermissionGranted, this`listening, this`lastPeakTime)
      ensures (old(activeSession).None? || old(activeSession).value.id != id) ==>
        unchanged(this`activeSession, this`currentRepetitions) && unchanged(svc.ls)
      ensures old(activeSession).Some? && old(activeSession).value.id == id ==>
        && activeSession.None? && currentRepetitions == 0
        && Forgotten()
    {
      RemoveSessionKeeps(mantraSessions, id);
      mantraSessions := WithoutSession(mantraSessions, id);
      if activeSession.Some? && activeSession.value.id == id {
        activeSession := None;
        currentRepetitions := 0;
        svc.ls.RemoveItem(LastActiveKey);
      }
    }

    /** The auto-save effect: while a session is active, the form's fields,
        target and current count are written onto it (not awaited) and it is
        replaced in the list; the active session itself is kept as it is. */
    method AutoSave(dateLabel: string)
      requires Valid()
      modifies this, svc
      ensures Valid()
      ensures unchanged(this`form, this`activeSession, this`currentRepetitions)
      ensures unchanged(this`micPermissionGranted, this`listening, this`lastPeakTime)
      ensures old(activeSession).None? ==> unchanged(this) && unchanged(svc)
      ensures old(activeSession).Some? ==>
        var u := Saved(old(activeSession).value, old(form), old(currentRepetitions), dateLabel);
        && mantraSessions == ReplaceSession(old(mantraSessions), u)
        && (old(svc.CanOpen()) ==> svc.stores == PutRecord(old(svc.OpenStores()), MantraSessions, SessionRecord(u)))
        && (!old(svc.CanOpen()) ==> unchanged(svc))
    {
      if activeSession.None? || !activeSession.value.isActive {
        return;
      }
      var u := Saved(activeSession.value, form, currentRepetitions, dateLabel);
      var _ := svc.Put(MantraSessions, SessionRecord(u));
      Rewrite(u);
    }

    method Rewrite(u: MantraSession)
      requires Valid() && activeSession.Some?
      requires u.id == activeSession.value.id && u.startedAt == activeSession.value.startedAt
      modifies this`mantraSessions
      ensures Valid()
      ensures mantraSessions == ReplaceSession(old(mantraSessions), u)
    {
      ReplaceSessionKeeps(mantraSessions, u);
      mantraSessions := ReplaceSession(mantraSessions, u);
    }

    /** `requestMic`: the permission prompt's answer, which
        `requestMicrophonePermission` also stores as the flag. */
    method RequestMic(granted: bool)
      requires Valid()
      modifies this`micPermissionGranted, svc.ls
      ensures Valid() && micPermissionGranted == granted
      ensures svc.ls.items == if svc.ls.available then old(svc.ls.items)[Constants.MicPermissionKey := FlagString(granted)] else old(svc.ls.items)
      ensures svc.ls.available ==> svc.GetMicPermissionGranted() == granted
    {
      svc.SetMicPermissionGranted(granted);
      micPermissionGranted := granted;
    }

    /** `startVoiceDetection`: refused without permission; otherwise the
        microphone is captured, or, when capture fails, the permission flag
        is cleared. */
    method StartVoiceDetection(captured: bool)
      requires Valid()
      modifies this`listening, this`micPermissionGranted
      ensures Valid()
      ensures !old(micPermissionGranted) ==> unchanged(this)
      ensures old(micPermissionGranted) && captured ==> listening && micPermissionGranted
      ensures old(micPermissionGranted) && !captured ==> !micPermissionGranted && listening == old(listening)
    {
      if !micPermissionGranted {
        return;
      }
      if captured {
        listening := true;
      } else {
        micPermissionGranted := false;
      }
    }

    method StopVoiceDetection()
      requires Valid()
      modifies this`listening
      ensures Valid() && !listening
    {
      listening := false;
    }

    /** The magnitudes of one analyser frame, summed. */
    method FrameEnergy(data: array<byte>) returns (sum: int)
      ensures sum == FrameSum(data[..])
    {
      sum := 0;
      var i := 0;
      while i < data.Length
        invariant 0 <= i <= data.Length
        invariant sum == FrameSum(data[..i])
      {
        assert data[..i + 1][..i] == data[..i];
        sum := sum + data[i] as int;
        i := i + 1;
      }
      assert data[..i] == data[..];
    }

    /** `onaudioprocess`: a frame that passes the onset rule counts one
        voice repetition (as a tap would) and becomes the last onset; any
        other frame changes nothing. */
    method OnAudioProcess(data: array<byte>, now: int) returns (fired: bool)
      requires Valid() && data.Length > 0
      modifies this, svc, svc.ls
      ensures Valid()
      ensures fired == IsOnset(FrameSum(data[..]), data.Length, now, old(lastPeakTime))
      ensures !fired ==> unchanged(this) && unchanged(svc) && unchanged(svc.ls)
      ensures fired ==> lastPeakTime == now && unchanged(this`form, this`micPermissionGranted)
      ensures fired && old(activeSession).None? ==>
        unchanged(this`activeSession, this`currentRepetitions, this`mantraSessions, this`listening)
        && unchanged(svc) && unchanged(svc.ls)
      ensures fired && old(activeSession).Some? ==>
        var a := Incremented(old(activeSession).value, Voice, now);
        var n := old(currentRepetitions) + 1;
        (n < a.requiredRepetitions ==> activeSession == Some(a) && currentRepetitions == n) &&
        (n >= a.requiredRepetitions && old(svc.CanOpen()) ==>
           mantraSessions == ReplaceSession(old(mantraSessions), Completed(a, n, now)) && activeSession.None?)
    {
      var sum := FrameEnergy(data);
      fired := IsOnset(sum, data.Length, now, lastPeakTime);
      if fired {
        var _ := IncrementCounter(Voice, now);
        lastPeakTime := now;
      }
    }
  }

  /** Writing a key just removed is the same as writing it in place. */
  lemma RemoveThenSet(m: map<string, string>, k: string, v: string)
    ensures (m - {k})[k := v] == m[k := v]
  {
  }

  /** Loading `id` while another session is active ends that one first. */
  predicate Switching(active: Option<MantraSession>, id: string) {
    active.Some? && active.value.id != id
  }

  /** Rewriting one session leaves every session with another id in the list. */
  lemma OthersSurviveReplace(l: seq<MantraSession>, c: MantraSession, x: MantraSession)
    requires x in l && x.id != c.id
    ensures x in ReplaceSession(l, c)
  {
    var i :| 0 <= i < |l| && l[i] == x;
    assert ReplaceSession(l, c)[i] == x;
  }
}
