/** The persistence layer (`StorageService`): eight IndexedDB object stores
    keyed by `id`, the `localStorage` flags and app settings, and the
    conversion of a `data:` URL into a blob.

    The database on the device is a map from store to a map from id to
    record. The service opens it once and keeps the handle; every store
    operation opens it first, so an operation fails exactly when opening
    fails (the engine is missing or the database on the device is newer
    than `DbVersion`). */
module Storage {
  import opened Common
  import opened Types
  import opened Json
  import opened Constants
  import opened Lists

  // ---------------------------------------------------------------------
  // Records and the database

  /** One value of `IDBDataSchema[T]` for some store `T`. */
  datatype Record =
    | RadionicsPresetRecord(radionicsPreset: RadionicsPreset)
    | EmissionLogRecord(emissionLog: RadionicsEmissionLog)
    | AudioTrackRecord(track: AudioTrack)
    | AmplifierRecord(recordId: string, settings: AmplifierSettings)
    | ProfileRecord(profile: SubliminalProfile)
    | HealingPresetRecord(healingPreset: HealingPreset)
    | FrequencyPresetRecord(frequencyPreset: FrequencyPreset)
    | SessionRecord(session: MantraSession)

  /** The key path of every store is `id`. */
  function RecordId(r: Record): string {
    match r
    case RadionicsPresetRecord(p) => p.id
    case EmissionLogRecord(l) => l.id
    case AudioTrackRecord(t) => t.id
    case AmplifierRecord(id, _) => id
    case ProfileRecord(p) => p.id
    case HealingPresetRecord(p) => p.id
    case FrequencyPresetRecord(p) => p.id
    case SessionRecord(s) => s.id
  }

  /** The store whose schema type the record has. */
  function StoreOf(r: Record): StoreName {
    match r
    case RadionicsPresetRecord(_) => RadionicsPresets
    case EmissionLogRecord(_) => RadionicsEmissionLogs
    case AudioTrackRecord(_) => AudioTracks
    case AmplifierRecord(_, _) => AmplifierSettingsStore
    case ProfileRecord(_) => SubliminalProfiles
    case HealingPresetRecord(_) => HealingPresets
    case FrequencyPresetRecord(_) => FrequencyPresets
    case SessionRecord(_) => MantraSessions
  }

  type Db = map<StoreName, map<string, Record>>

  /** Each record sits under its own id in the store of its type. */
  predicate WellFormed(db: Db) {
    forall s, k | s in db && k in db[s] :: RecordId(db[s][k]) == k && StoreOf(db[s][k]) == s
  }

  predicate HasAllStores(db: Db) {
    forall s: StoreName :: s in db
  }

  /** `store.get(id)`: the record, or `undefined`. */
  function GetRecord(db: Db, s: StoreName, id: string): Option<Record> {
    if s in db && id in db[s] then Some(db[s][id]) else None
  }

  /** `store.put(r)`: insert or replace under the record's id. */
  function PutRecord(db: Db, s: StoreName, r: Record): (d: Db)
    requires s in db
    ensures d.Keys == db.Keys
  {
    db[s := db[s][RecordId(r) := r]]
  }

  /** `store.add(r)`: like `put`, but fails (None) when the id is taken. */
  function AddRecord(db: Db, s: StoreName, r: Record): (d: Option<Db>)
    requires s in db
    ensures d.None? <==> GetRecord(db, s, RecordId(r)).Some?
    ensures d.Some? ==> d.value == PutRecord(db, s, r)
  {
    if RecordId(r) in db[s] then None else Some(PutRecord(db, s, r))
  }

  /** `store.delete(id)`: deleting a missing id succeeds and changes nothing. */
  function DeleteRecord(db: Db, s: StoreName, id: string): (d: Db)
    requires s in db
    ensures d.Keys == db.Keys
  {
    db[s := db[s] - {id}]
  }

  /** The upgrade rule: every missing store is created empty, every existing
      store is kept as it is. */
  function Upgrade(db: Db): (d: Db)
    ensures HasAllStores(d)
    ensures forall s :: s in db ==> d[s] == db[s]
    ensures forall s :: s !in db ==> d[s] == map[]
    ensures WellFormed(db) ==> WellFormed(d)
  {
    StoreNamesDistinct();
    map s | s in AllStoreNames :: if s in db then db[s] else map[]
  }

  /** After `put(s, r)`, `get(s, r.id)` is `r`; every other id of every
      store reads as before. */
  lemma PutThenGet(db: Db, s: StoreName, r: Record, t: StoreName, id: string)
    requires s in db
    ensures GetRecord(PutRecord(db, s, r), t, id) ==
      if t == s && id == RecordId(r) then Some(r) else GetRecord(db, t, id)
  {
  }

  /** After `delete(s, x)`, `get(s, x)` is undefined; nothing else changes. */
  lemma DeleteThenGet(db: Db, s: StoreName, x: string, t: StoreName, id: string)
    requires s in db
    ensures GetRecord(DeleteRecord(db, s, x), t, id) ==
      if t == s && id == x then None else GetRecord(db, t, id)
  {
  }

  /** Writing a record of the store's own type keeps the database well
      formed, and so does deleting. */
  lemma PutKeepsWellFormed(db: Db, s: StoreName, r: Record)
    requires WellFormed(db) && s in db && StoreOf(r) == s
    ensures WellFormed(PutRecord(db, s, r))
  {
  }

  lemma DeleteKeepsWellFormed(db: Db, s: StoreName, x: string)
    requires WellFormed(db) && s in db
    ensures WellFormed(DeleteRecord(db, s, x))
  {
  }

  /** `r` lists the records of one store, each exactly once (in an order the
      model leaves open). */
  predicate IsListing(r: seq<Record>, m: map<string, Record>) {
    && (forall i :: 0 <= i < |r| ==> RecordId(r[i]) in m && m[RecordId(r[i])] == r[i])
    && (forall i, j :: 0 <= i < j < |r| ==> RecordId(r[i]) != RecordId(r[j]))
    && (forall k :: k in m ==> exists i :: 0 <= i < |r| && r[i] == m[k])
  }

  /** The engine's cursor over one store: it visits every record once. */
  method ListRecords(all: map<string, Record>) returns (out: seq<Record>)
    requires forall k :: k in all ==> RecordId(all[k]) == k
    ensures IsListing(out, all)
  {
    var keys := all.Keys;
    out := [];
    while keys != {}
      invariant keys <= all.Keys
      invariant forall i :: 0 <= i < |out| ==> RecordId(out[i]) in all && RecordId(out[i]) !in keys && all[RecordId(out[i])] == out[i]
      invariant forall i, j :: 0 <= i < j < |out| ==> RecordId(out[i]) != RecordId(out[j])
      invariant forall k :: k in all && k !in keys ==> exists i :: 0 <= i < |out| && out[i] == all[k]
      decreases |keys|
    {
      var k :| k in keys;
      var next := out + [all[k]];
      assert RecordId(next[|out|]) == k;
      forall k' | k' in all && k' !in keys - {k}
        ensures exists i :: 0 <= i < |next| && next[i] == all[k']
      {
        if k' == k {
          assert next[|out|] == all[k'];
        } else {
          var i :| 0 <= i < |out| && out[i] == all[k'];
          assert next[i] == all[k'];
        }
      }
      out := next;
      keys := keys - {k};
    }
  }

  // ---------------------------------------------------------------------
  // Typed views of a listing (the `getRadionicsPresets`, ... helpers)

  /** The values that `pick` extracts from the records, in order. */
  function Collect<T>(rs: seq<Record>, pick: Record -> Option<T>): (r: seq<T>)
    ensures |r| <= |rs|
    ensures (forall i :: 0 <= i < |rs| ==> pick(rs[i]).Some?) ==> |r| == |rs| && forall i :: 0 <= i < |rs| ==> r[i] == pick(rs[i]).value
    ensures forall x :: x in r ==> exists i :: 0 <= i < |rs| && pick(rs[i]) == Some(x)
  {
    if rs == [] then []
    else
      var rest := Collect(rs[1..], pick);
      assert forall x :: x in rest ==> exists i :: 0 <= i < |rs| && pick(rs[i]) == Some(x) by {
        forall x | x in rest ensures exists i :: 0 <= i < |rs| && pick(rs[i]) == Some(x) {
          var i :| 0 <= i < |rs[1..]| && pick(rs[1..][i]) == Some(x);
          assert pick(rs[i + 1]) == Some(x);
        }
      }
      match pick(rs[0])
      case Some(x) => [x] + rest
      case None => rest
  }

  /** Picking the records out of a listing gives one element per stored key. */
  lemma CollectFromListing<T>(recs: seq<Record>, m: map<string, Record>, pick: Record -> Option<T>, idOf: T -> string)
    requires IsListing(recs, m)
    requires forall k :: k in m ==> pick(m[k]).Some? && idOf(pick(m[k]).value) == k
    ensures var c := Collect(recs, pick);
      && DistinctBy(c, idOf)
      && (forall x :: x in c ==> idOf(x) in m && pick(m[idOf(x)]) == Some(x))
      && (forall k :: k in m ==> exists i :: 0 <= i < |c| && idOf(c[i]) == k)
  {
    var c := Collect(recs, pick);
    PickedListing(recs, m, pick, idOf);
    forall x | x in c ensures idOf(x) in m && pick(m[idOf(x)]) == Some(x) {
      var i :| 0 <= i < |c| && c[i] == x;
    }
    forall k | k in m ensures exists i :: 0 <= i < |c| && idOf(c[i]) == k {
      var j :| 0 <= j < |recs| && recs[j] == m[k];
      assert idOf(c[j]) == k;
    }
  }

  /** Each element picked out of a listing is the record stored under the
      id of the listed record it came from. */
  lemma PickedListing<T>(recs: seq<Record>, m: map<string, Record>, pick: Record -> Option<T>, idOf: T -> string)
    requires IsListing(recs, m)
    requires forall k :: k in m ==> pick(m[k]).Some? && idOf(pick(m[k]).value) == k
    ensures var c := Collect(recs, pick);
      && |c| == |recs|
      && forall i :: 0 <= i < |c| ==> idOf(c[i]) == RecordId(recs[i]) && RecordId(recs[i]) in m && pick(m[RecordId(recs[i])]) == Some(c[i])
  {
    forall i | 0 <= i < |recs| ensures pick(recs[i]).Some? && idOf(pick(recs[i]).value) == RecordId(recs[i]) {
      assert recs[i] == m[RecordId(recs[i])];
    }
  }

  /** The list shows the store: no id twice, each element is the record
      stored under its id, and every stored id is listed. */
  ghost predicate Shows<T>(l: seq<T>, m: map<string, Record>, pick: Record -> Option<T>, idOf: T -> string) {
    && DistinctBy(l, idOf)
    && (forall i :: 0 <= i < |l| ==> idOf(l[i]) in m && pick(m[idOf(l[i])]) == Some(l[i]))
    && (forall k :: k in m ==> exists i :: 0 <= i < |l| && idOf(l[i]) == k)
  }

  /** A listing picked out and sorted newest first shows every stored record
      once, in order. */
  lemma SortedListing<T>(recs: seq<Record>, m: map<string, Record>, pick: Record -> Option<T>,
                         idOf: T -> string, key: T -> int)
    requires IsListing(recs, m)
    requires forall k :: k in m ==> pick(m[k]).Some? && idOf(pick(m[k]).value) == k
    ensures var l := SortDesc(Collect(recs, pick), key);
      SortedDesc(l, key) && Shows(l, m, pick, idOf)
  {
    var c := Collect(recs, pick);
    CollectFromListing(recs, m, pick, idOf);
    var l := SortDesc(c, key);
    SortDescSorted(c, key);
    PermutationKeepsDistinct(c, l, idOf);
    forall i | 0 <= i < |l| ensures idOf(l[i]) in m && pick(m[idOf(l[i])]) == Some(l[i]) {
      assert l[i] in multiset(c);
    }
    forall k | k in m ensures exists i :: 0 <= i < |l| && idOf(l[i]) == k {
      var j :| 0 <= j < |c| && idOf(c[j]) == k;
      assert c[j] in multiset(l);
      var i :| 0 <= i < |l| && l[i] == c[j];
    }
  }

  function AsRadionicsPreset(r: Record): Option<RadionicsPreset> {
    if r.RadionicsPresetRecord? then Some(r.radionicsPreset) else None
  }

  function AsEmissionLog(r: Record): Option<RadionicsEmissionLog> {
    if r.EmissionLogRecord? then Some(r.emissionLog) else None
  }

  function AsAudioTrack(r: Record): Option<AudioTrack> {
    if r.AudioTrackRecord? then Some(r.track) else None
  }

  function AsProfile(r: Record): Option<SubliminalProfile> {
    if r.ProfileRecord? then Some(r.profile) else None
  }

  function AsHealingPreset(r: Record): Option<HealingPreset> {
    if r.HealingPresetRecord? then Some(r.healingPreset) else None
  }

  function AsFrequencyPreset(r: Record): Option<FrequencyPreset> {
    if r.FrequencyPresetRecord? then Some(r.frequencyPreset) else None
  }

  function AsSession(r: Record): Option<MantraSession> {
    if r.SessionRecord? then Some(r.session) else None
  }

  // ---------------------------------------------------------------------
  // Amplifier settings singleton

  const SingletonId: string := "singleton"

  /** `(await get('amplifierSettings', 'singleton')) || DEFAULT_AMPLIFIER_SETTINGS`. */
  function SettingsOrDefault(rec: Option<Record>): (r: AmplifierSettings)
    ensures rec.None? ==> r == DefaultAmplifierSettings
    ensures rec.Some? && rec.value.AmplifierRecord? ==> r == rec.value.settings
  {
    if rec.Some? && rec.value.AmplifierRecord? then rec.value.settings else DefaultAmplifierSettings
  }

  /** Saving always writes at id `'singleton'`, so reading after saving
      returns the saved fields, whatever was stored before. */
  lemma SingletonRoundTrip(db: Db, x: AmplifierSettings)
    requires AmplifierSettingsStore in db
    ensures SettingsOrDefault(GetRecord(PutRecord(db, AmplifierSettingsStore, AmplifierRecord(SingletonId, x)),
                                        AmplifierSettingsStore, SingletonId)) == x
  {
  }

  // ---------------------------------------------------------------------
  // localStorage values

  /** `String(b)`. */
  function FlagString(b: bool): string {
    if b then "true" else "false"
  }

  /** `localStorage.getItem(key) === 'true'`; a missing key reads as false. */
  function ReadFlag(stored: Option<string>): (b: bool)
    ensures b <==> stored == Some("true")
  {
    stored.Some? && stored.value == "true"
  }

  /** What a setter writes, a getter reads back. */
  lemma FlagRoundTrip(b: bool)
    ensures ReadFlag(Some(FlagString(b))) == b
  {
  }

  const LegacyKey: string := "acknowledgedDisclaimer"

  /** `if (v && 'acknowledgedDisclaimer' in v) delete v.acknowledgedDisclaimer`.
      The `in` operator throws on a truthy primitive (None). */
  function DropLegacy(v: Json): (r: Option<Json>)
    ensures r.None? <==> Truthy(v) && (v.JBool? || v.JNum? || v.JStr?)
    ensures v.JObj? ==> r == Some(JObj(v.fields - {LegacyKey}))
    ensures !v.JObj? && r.Some? ==> r.value == v
  {
    match v
    case JObj(f) => Some(JObj(f - {LegacyKey}))
    case JArr(_) => Some(v)
    case _ => if Truthy(v) then None else Some(v)
  }

  /** `getAppSettings` once `localStorage.getItem` has answered `stored`
      (None for a missing key or a storage error); `parse` is `JSON.parse`,
      None where it throws. */
  function AppSettingsFrom(stored: Option<string>, parse: string -> Option<Json>): (r: Json)
    ensures r.JObj? ==> LegacyKey !in r.fields
    ensures stored.None? || stored == Some("") ==> r == DefaultAppSettings
    ensures stored.Some? && stored.value != "" && parse(stored.value).None? ==> r == DefaultAppSettings
    ensures stored.Some? && stored.value != "" && parse(stored.value).Some? && parse(stored.value).value.JObj? ==>
      r == JObj(parse(stored.value).value.fields - {LegacyKey})
  {
    DefaultsShape();
    match stored
    case None => DefaultAppSettings
    case Some(s) =>
      if s == "" then DefaultAppSettings
      else
        match parse(s)
        case None => DefaultAppSettings
        case Some(v) =>
          match DropLegacy(v)
          case None => DefaultAppSettings
          case Some(w) => w
  }

  /** Settings saved by `saveAppSettings` read back unchanged, provided the
      serialiser and the parser agree on them. */
  lemma AppSettingsRoundTrip(x: Json, parse: string -> Option<Json>, stringify: Json -> string)
    requires x.JObj? && LegacyKey !in x.fields
    requires stringify(x) != "" && parse(stringify(x)) == Some(x)
    ensures AppSettingsFrom(Some(stringify(x)), parse) == x
  {
    assert x.fields - {LegacyKey} == x.fields;
  }

  // ---------------------------------------------------------------------
  // data: URLs

  /** `s.split(',')[0]`: the text before the first comma. */
  function Header(s: string): (r: string)
    ensures r <= s && ',' !in r
    ensures |r| < |s| ==> s[|r|] == ','
  {
    if s == [] || s[0] == ',' then [] else [s[0]] + Header(s[1..])
  }

  /** `String(s.split(',')[1])`: the text between the first and the second
      comma, or `"undefined"` when there is no comma. */
  function AtobArgument(s: string): (r: string)
    ensures ',' !in s ==> r == "undefined"
    ensures ',' in s ==> ',' !in r && (Header(s) + "," + r) <= s &&
                         (|Header(s)| + 1 + |r| == |s| || s[|Header(s)| + 1 + |r|] == ',')
  {
    var h := Header(s);
    if |h| == |s| then
      assert h == s;
      "undefined"
    else
      var rest := s[|h| + 1..];
      var r := Header(rest);
      assert s == h + "," + rest;
      r
  }

  predicate IsLineTerminator(c: char) {
    c == '\n' || c == '\r' || c == '\U{2028}' || c == '\U{2029}'
  }

  /** The first `;` at or after `i` that comes before any line terminator. */
  function SemicolonAfter(h: string, i: nat): (r: Option<nat>)
    requires i <= |h|
    ensures r.Some? ==> i <= r.value < |h| && h[r.value] == ';'
    ensures r.Some? ==> forall k :: i <= k < r.value ==> h[k] != ';' && !IsLineTerminator(h[k])
    ensures r.None? ==> forall j :: i <= j < |h| && h[j] == ';' ==> exists k :: i <= k < j && IsLineTerminator(h[k])
    decreases |h| - i
  {
    if i == |h| || IsLineTerminator(h[i]) then None
    else if h[i] == ';' then Some(i)
    else SemicolonAfter(h, i + 1)
  }

  /** `h[i]` is a `:` that a `;` follows with no line terminator between. */
  predicate OpensMatch(h: string, i: nat) {
    i < |h| && h[i] == ':' && SemicolonAfter(h, i + 1).Some?
  }

  /** `h.match(/:(.*?);/)` searched from position `from`: the text after the
      leftmost `:` that a `;` follows with no line terminator in between. */
  function MimeMatch(h: string, from: nat): (r: Option<string>)
    ensures r.Some? ==> exists i :: from <= i && i + |r.value| + 1 < |h| && h[i] == ':' && h[i + 1..i + |r.value| + 1] == r.value && h[i + |r.value| + 1] == ';'
    ensures r.Some? ==> forall k :: 0 <= k < |r.value| ==> r.value[k] != ';' && !IsLineTerminator(r.value[k])
    ensures r.None? ==> forall i, j :: from <= i < j < |h| && h[i] == ':' && h[j] == ';' ==> exists k :: i < k < j && IsLineTerminator(h[k])
    ensures r.Some? ==> exists i :: from <= i && OpensMatch(h, i) && r.value == h[i + 1..SemicolonAfter(h, i + 1).value] &&
                                    forall i' :: from <= i' < i ==> !OpensMatch(h, i')
    decreases |h| - from
  {
    if from >= |h| then None
    else if OpensMatch(h, from) then
      var j := SemicolonAfter(h, from + 1).value;
      assert h[from + 1..j] == h[from + 1..from + |h[from + 1..j]| + 1];
      Some(h[from + 1..j])
    else
      MimeMatch(h, from + 1)
  }

  /** The media type `dataUrlToBlob` passes to the blob. */
  function MimeOf(dataUrl: string): string {
    match MimeMatch(Header(dataUrl), 0)
    case Some(m) => m
    case None => "application/octet-stream"
  }

  /** The `Blob` constructor keeps a type made of printable ASCII, lower-cased,
      and replaces any other type by the empty string. */
  function BlobType(t: string): (r: string)
    ensures (forall i :: 0 <= i < |t| ==> ' ' <= t[i] <= '~') ==> r == AsciiLower(t)
    ensures (exists i :: 0 <= i < |t| && !(' ' <= t[i] <= '~')) ==> r == ""
  {
    if forall i :: 0 <= i < |t| ==> ' ' <= t[i] <= '~' then AsciiLower(t) else ""
  }

  datatype Blob = Blob(bytes: seq<byte>, mimeType: string)

  // ---------------------------------------------------------------------
  // localStorage

  /** `window.localStorage`. When storage is unavailable every read finds
      nothing and every write is lost. */
  class LocalStorage {
    var items: map<string, string>
    const available: bool

    constructor (available: bool, items: map<string, string>)
      ensures this.available == available && this.items == items
    {
      this.available := available;
      this.items := items;
    }

    function GetItem(key: string): (r: Option<string>)
      reads this
      ensures r.Some? <==> available && key in items
      ensures r.Some? ==> r.value == items[key]
    {
      if available && key in items then Some(items[key]) else None
    }

    method SetItem(key: string, value: string)
      modifies this
      ensures items == if available then old(items)[key := value] else old(items)
    {
      if available {
        items := items[key := value];
      }
    }

    method RemoveItem(key: string)
      modifies this
      ensures items == if available then old(items) - {key} else old(items)
      ensures GetItem(key).None?
    {
      if available {
        items := items - {key};
      }
    }
  }

  // ---------------------------------------------------------------------
  // The service

  class StorageService {
    /** `this.db !== null`: the database has been isOpen in this session. */
    var isOpen: bool
    /** Version of the database on the device (0 if it does not exist). */
    var diskVersion: nat
    /** The object stores of the database on the device. */
    var stores: Db
    /** Whether the browser offers IndexedDB. */
    const engineAvailable: bool
    const ls: LocalStorage

    ghost predicate Valid()
      reads this
    {
      && WellFormed(stores)
      && (diskVersion == DbVersion ==> HasAllStores(stores))
      && (isOpen ==> diskVersion == DbVersion)
    }

    constructor (engineAvailable: bool, diskVersion: nat, stores: Db, ls: LocalStorage)
      requires WellFormed(stores)
      requires diskVersion == DbVersion ==> HasAllStores(stores)
      ensures Valid() && !isOpen
      ensures this.engineAvailable == engineAvailable && this.diskVersion == diskVersion
      ensures this.stores == stores && this.ls == ls
    {
      this.isOpen := false;
      this.engineAvailable := engineAvailable;
      this.diskVersion := diskVersion;
      this.stores := stores;
      this.ls := ls;
    }

    /** Whether opening the database succeeds now. */
    predicate CanOpen()
      reads this
    {
      isOpen || (engineAvailable && diskVersion <= DbVersion)
    }

    /** The object stores as they are once the database has been isOpen. */
    function OpenStores(): (d: Db)
      reads this
      requires Valid()
      ensures WellFormed(d)
      ensures CanOpen() ==> HasAllStores(d)
    {
      if !isOpen && engineAvailable && diskVersion < DbVersion then Upgrade(stores) else stores
    }

    /** `initIndexedDB`: reuse an open handle; otherwise open, running the
        upgrade when the device holds an older version. */
    method InitIndexedDB() returns (ok: bool)
      requires Valid()
      modifies this
      ensures Valid()
      ensures ok == old(CanOpen()) && ok == isOpen
      ensures old(isOpen) ==> unchanged(this)
      ensures ok ==> stores == old(OpenStores())
      ensures !ok ==> unchanged(this)
    {
      if isOpen {
        return true;
      }
      if !engineAvailable || diskVersion > DbVersion {
        return false;
      }
      if diskVersion < DbVersion {
        ghost var before := stores;
        StoreNamesDistinct();
        var i := 0;
        while i < |AllStoreNames|
          invariant 0 <= i <= |AllStoreNames|
          invariant forall s :: s in stores <==> s in before || s in AllStoreNames[..i]
          invariant forall s :: s in before ==> stores[s] == before[s]
          invariant forall s :: s in stores && s !in before ==> stores[s] == map[]
        {
          var name := AllStoreNames[i];
          if name !in stores {
            stores := stores[name := map[]];
          }
          i := i + 1;
        }
        assert stores == Upgrade(before);
        diskVersion := DbVersion;
      }
      isOpen := true;
      ok := true;
    }

    /** `getAll(s)`: the records of one store; None when the request fails. */
    method GetAll(s: StoreName) returns (r: Option<seq<Record>>)
      requires Valid()
      modifies this
      ensures Valid()
      ensures r.Some? <==> old(CanOpen())
      ensures old(CanOpen()) ==> isOpen && stores == old(OpenStores())
      ensures !old(CanOpen()) ==> unchanged(this)
      ensures r.Some? ==> IsListing(r.value, stores[s])
      ensures r.Some? ==> forall i :: 0 <= i < |r.value| ==> StoreOf(r.value[i]) == s
    {
      var ok := InitIndexedDB();
      if !ok {
        return None;
      }
      var out := ListRecords(stores[s]);
      r := Some(out);
    }

    /** `get(s, id)`: Some(None) for a missing id, None when the request fails. */
    method Get(s: StoreName, id: string) returns (r: Option<Option<Record>>)
      requires Valid()
      modifies this
      ensures Valid()
      ensures r.Some? <==> old(CanOpen())
      ensures old(CanOpen()) ==> isOpen && stores == old(OpenStores())
      ensures !old(CanOpen()) ==> unchanged(this)
      ensures r.Some? ==> r.value == GetRecord(stores, s, id)
    {
      var ok := InitIndexedDB();
      if !ok {
        return None;
      }
      r := Some(GetRecord(stores, s, id));
    }

    /** `put(s, rec)`: insert or replace. */
    method Put(s: StoreName, rec: Record) returns (ok: bool)
      requires Valid() && StoreOf(rec) == s
      modifies this
      ensures Valid()
      ensures ok == old(CanOpen())
      ensures ok ==> isOpen && stores == PutRecord(old(OpenStores()), s, rec)
      ensures !ok ==> unchanged(this)
    {
      ok := InitIndexedDB();
      if ok {
        PutKeepsWellFormed(stores, s, rec);
        stores := PutRecord(stores, s, rec);
      }
    }

    /** `add(s, rec)`: rejected when the id is already stored. */
    method Add(s: StoreName, rec: Record) returns (ok: bool)
      requires Valid() && StoreOf(rec) == s
      modifies this
      ensures Valid()
      ensures ok <==> old(CanOpen()) && RecordId(rec) !in old(OpenStores())[s]
      ensures old(CanOpen()) ==> isOpen
      ensures old(CanOpen()) ==> stores == if ok then PutRecord(old(OpenStores()), s, rec) else old(OpenStores())
      ensures !old(CanOpen()) ==> unchanged(this)
    {
      ok := InitIndexedDB();
      if ok {
        match AddRecord(stores, s, rec)
        case None =>
          ok := false;
        case Some(d) =>
          PutKeepsWellFormed(stores, s, rec);
          stores := d;
      }
    }

    /** `delete(s, id)`. */
    method Delete(s: StoreName, id: string) returns (ok: bool)
      requires Valid()
      modifies this
      ensures Valid()
      ensures ok == old(CanOpen())
      ensures ok ==> isOpen && stores == DeleteRecord(old(OpenStores()), s, id)
      ensures !ok ==> unchanged(this)
    {
      ok := InitIndexedDB();
      if ok {
        DeleteKeepsWellFormed(stores, s, id);
        stores := DeleteRecord(stores, s, id);
      }
    }

    /** `getAmplifierSettings`: the singleton record, or the defaults. */
    method GetAmplifierSettings() returns (r: Option<AmplifierSettings>)
      requires Valid()
      modifies this
      ensures Valid()
      ensures r.Some? <==> old(CanOpen())
      ensures old(CanOpen()) ==> isOpen && stores == old(OpenStores())
      ensures !old(CanOpen()) ==> unchanged(this)
      ensures r.Some? ==> r.value == SettingsOrDefault(GetRecord(stores, AmplifierSettingsStore, SingletonId))
    {
      var rec := Get(AmplifierSettingsStore, SingletonId);
      if rec.None? {
        return None;
      }
      r := Some(SettingsOrDefault(rec.value));
    }

    /** `saveAmplifierSettings`: always written at id `'singleton'`. */
    method SaveAmplifierSettings(settings: AmplifierSettings) returns (ok: bool)
      requires Valid()
      modifies this
      ensures Valid()
      ensures ok == old(CanOpen())
      ensures ok ==> isOpen && stores == PutRecord(old(OpenStores()), AmplifierSettingsStore, AmplifierRecord(SingletonId, settings))
      ensures ok ==> SettingsOrDefault(GetRecord(stores, AmplifierSettingsStore, SingletonId)) == settings
      ensures !ok ==> unchanged(this)
    {
      ok := Put(AmplifierSettingsStore, AmplifierRecord(SingletonId, settings));
    }

    // --- localStorage flags and settings ---

    function GetMicPermissionGranted(): bool
      reads ls
    {
      ReadFlag(ls.GetItem(MicPermissionKey))
    }

    method SetMicPermissionGranted(granted: bool)
      modifies ls
      ensures ls.items == if ls.available then old(ls.items)[MicPermissionKey := FlagString(granted)] else old(ls.items)
      ensures ls.available ==> GetMicPermissionGranted() == granted
    {
      ls.SetItem(MicPermissionKey, FlagString(granted));
    }

    function GetWelcomeMessageShown(): bool
      reads ls
    {
      ReadFlag(ls.GetItem(WelcomeShownKey))
    }

    method SetWelcomeMessageShown(shown: bool)
      modifies ls
      ensures ls.items == if ls.available then old(ls.items)[WelcomeShownKey := FlagString(shown)] else old(ls.items)
      ensures ls.available ==> GetWelcomeMessageShown() == shown
    {
      ls.SetItem(WelcomeShownKey, FlagString(shown));
    }

    function GetAppSettings(parse: string -> Option<Json>): Json
      reads ls
    {
      AppSettingsFrom(ls.GetItem(AppSettingsKey), parse)
    }

    method SaveAppSettings(settings: Json, stringify: Json -> string)
      modifies ls
      ensures ls.items == if ls.available then old(ls.items)[AppSettingsKey := stringify(settings)] else old(ls.items)
    {
      ls.SetItem(AppSettingsKey, stringify(settings));
    }

    /** `dataUrlToBlob`: `atob` is a parameter, None where it throws. The
        bytes are filled from the last to the first, as the source's
        count-down loop does. */
    method DataUrlToBlob(dataUrl: string, atob: string -> Option<string>) returns (r: Option<Blob>)
      ensures r.None? <==> atob(AtobArgument(dataUrl)).None?
      ensures r.Some? ==> r.value.mimeType == BlobType(MimeOf(dataUrl))
      ensures r.Some? ==> |r.value.bytes| == |atob(AtobArgument(dataUrl)).value|
      ensures r.Some? ==> forall i :: 0 <= i < |r.value.bytes| ==>
        r.value.bytes[i] as int == atob(AtobArgument(dataUrl)).value[i] as int % 256
    {
      var decoded := atob(AtobArgument(dataUrl));
      if decoded.None? {
        return None;
      }
      var bstr := decoded.value;
      var n := |bstr|;
      var u8arr := new byte[n];
      while n > 0
        invariant 0 <= n <= u8arr.Length == |bstr|
        invariant forall i :: n <= i < u8arr.Length ==> u8arr[i] as int == bstr[i] as int % 256
      {
        n := n - 1;
        u8arr[n] := (bstr[n] as int % 256) as byte;
      }
      r := Some(Blob(u8arr[..], BlobType(MimeOf(dataUrl))));
    }
  }
}
