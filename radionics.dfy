/** The radionics simulator: six rate dials whose mean is the resonance
    strength, an optional witness (a text or an image), an energy pool that
    regenerates every second and pays for each emission, a log of emissions
    and a list of named presets with auto-save of the selected one. */
module Radionics {
  import opened Common
  import opened Types
  import opened Constants
  import opened Lists
  import opened Presets
  import opened Storage

  const MaxEnergyPool: real := 1000.0
  /** Energy regained per one-second tick. */
  const PassiveRegenRate: real := 0.5
  /** Energy an emission costs per resonance point. */
  const EmissionCostFactor: real := 0.1
  /** The `localStorage` key remembering the selected preset. */
  const LastActiveKey: string := "radionicsLastActivePresetId"
  /** How much of a text witness an emission log quotes. */
  const WitnessQuoteLength: nat := 30
  /** How long the emission animation lasts, in milliseconds. */
  const EmissionDurationMs: nat := 1500

  function RateSum(r: RadionicsRates): int {
    r.trend1 + r.trend2 + r.trend3 + r.target1 + r.target2 + r.target3
  }

  /** Every dial within the range the dials allow. */
  predicate RatesInRange(r: RadionicsRates) {
    forall d :: 0 <= RateOf(r, d) <= 100
  }

  /** `Math.round(sum / 6)`: the mean of the six dials, rounded half up. */
  function Resonance(r: RadionicsRates): (res: int)
    ensures 6 * res - 3 <= RateSum(r) < 6 * res + 3
    ensures RatesInRange(r) ==> 0 <= res <= 100
  {
    var x := RateSum(r) as real / 6.0;
    var res := Round(x);
    assert 6.0 * x == RateSum(r) as real;
    assert 6.0 * (x - 0.5) < 6.0 * res as real <= 6.0 * (x + 0.5);
    assert RatesInRange(r) ==>
      && 0 <= RateOf(r, Trend1) <= 100 && 0 <= RateOf(r, Trend2) <= 100 && 0 <= RateOf(r, Trend3) <= 100
      && 0 <= RateOf(r, Target1) <= 100 && 0 <= RateOf(r, Target2) <= 100 && 0 <= RateOf(r, Target3) <= 100;
    res
  }

  /** The default dials give a resonance of 50. */
  lemma DefaultResonance()
    ensures Resonance(DefaultRadionicsRates) == 50
  {
    assert RateSum(DefaultRadionicsRates) == 300;
  }

  /** One tick of the regeneration interval: `min(MAX, prev + 0.5)`. */
  function Regenerated(pool: real): (p: real)
    ensures p <= MaxEnergyPool
    ensures pool <= MaxEnergyPool ==> pool <= p <= pool + PassiveRegenRate
    ensures pool <= MaxEnergyPool - PassiveRegenRate ==> p == pool + PassiveRegenRate
  {
    MinReal(MaxEnergyPool, pool + PassiveRegenRate)
  }

  /** The energy an emission at this resonance costs. */
  function EmissionCost(resonance: int): (c: real)
    ensures 0 <= resonance <= 100 ==> 0.0 <= c <= 10.0
  {
    resonance as real * EmissionCostFactor
  }

  /** The guard of `handleEmit`: the pool must cover the cost. */
  predicate CanAfford(pool: real, resonance: int) {
    !(pool < EmissionCost(resonance))
  }

  /** `Math.max(0, prev - cost)`. */
  function Drained(pool: real, cost: real): (p: real)
    ensures p >= 0.0
    ensures cost >= 0.0 && pool >= 0.0 ==> p <= pool
    ensures pool >= cost ==> p == pool - cost
  {
    MaxReal(0.0, pool - cost)
  }

  /** An emission the pool can afford never clips at zero and never raises the
      pool when the dials are in range. */
  lemma AffordableEmission(pool: real, rates: RadionicsRates)
    requires CanAfford(pool, Resonance(rates))
    ensures Drained(pool, EmissionCost(Resonance(rates))) == pool - EmissionCost(Resonance(rates))
    ensures RatesInRange(rates) ==> pool - 10.0 <= Drained(pool, EmissionCost(Resonance(rates))) <= pool
  {
  }

  /** The `witnessInfo` of an emission log. */
  function WitnessSummary(w: Option<RadionicsWitness>): (s: string)
    ensures w.None? ==> s == "No witness"
    ensures w.Some? && w.value.kind == Text ==>
      && |s| == 9 + Min(WitnessQuoteLength, |w.value.data|)
      && s[..6] == "Text: " && s[|s| - 3..] == "..."
      && s[6..|s| - 3] <= w.value.data
    ensures w.Some? && w.value.kind == Image && w.value.name.Some? && w.value.name.value != "" ==>
      s == "Image: " + w.value.name.value
    ensures w.Some? && w.value.kind == Image && (w.value.name.None? || w.value.name.value == "") ==>
      s == "Image: Untitled"
  {
    match w
    case None => "No witness"
    case Some(x) =>
      if x.kind == Text then
        var quote := x.data[..Min(WitnessQuoteLength, |x.data|)];
        var s := "Text: " + quote + "...";
        assert s[6..|s| - 3] == quote;
        s
      else "Image: " + (if x.name.Some? && x.name.value != "" then x.name.value else "Untitled")
  }

  function Timestamp(l: RadionicsEmissionLog): int { l.timestamp }

  function LogId(l: RadionicsEmissionLog): string { l.id }

  /** The log of one emission: the current dials, the resonance, the witness
      summary and the energy paid. `parseFloat(cost.toFixed(2))` is the
      cost itself, which has at most one decimal. */
  function EmissionLog(id: string, now: int, rates: RadionicsRates, resonance: int,
                       w: Option<RadionicsWitness>): RadionicsEmissionLog
  {
    RadionicsEmissionLog(id, now, rates, resonance, WitnessSummary(w), EmissionCost(resonance))
  }

  /** The emission logs as listed, newest first. */
  function LoadedLogs(recs: seq<Record>): seq<RadionicsEmissionLog> {
    SortDesc(Collect(recs, AsEmissionLog), Timestamp)
  }

  lemma PresetsShown(recs: seq<Record>, db: Db)
    requires WellFormed(db) && RadionicsPresets in db && IsListing(recs, db[RadionicsPresets])
    ensures WellOrdered(Loaded(recs, AsRadionicsPreset))
    ensures Shows(Loaded(recs, AsRadionicsPreset), db[RadionicsPresets], AsRadionicsPreset, IdOf)
  {
    var m := db[RadionicsPresets];
    assert forall k :: k in m ==> AsRadionicsPreset(m[k]).Some? && IdOf(AsRadionicsPreset(m[k]).value) == k;
    LoadedFromListing(recs, m, AsRadionicsPreset);
  }

  lemma LogsShown(recs: seq<Record>, db: Db)
    requires WellFormed(db) && RadionicsEmissionLogs in db && IsListing(recs, db[RadionicsEmissionLogs])
    ensures SortedDesc(LoadedLogs(recs), Timestamp)
    ensures Shows(LoadedLogs(recs), db[RadionicsEmissionLogs], AsEmissionLog, LogId)
  {
    var m := db[RadionicsEmissionLogs];
    assert forall k :: k in m ==> AsEmissionLog(m[k]).Some? && LogId(AsEmissionLog(m[k]).value) == k;
    SortedListing(recs, m, AsEmissionLog, LogId, Timestamp);
  }

  /** The fields of the component, as one value. */
  datatype Snapshot = Snapshot(
    rates: RadionicsRates,
    attachedWitness: Option<RadionicsWitness>,
    energyPool: real,
    resonanceStrength: int,
    emissionLogs: seq<RadionicsEmissionLog>,
    presets: seq<RadionicsPreset>,
    selectedPresetId: string,
    presetName: string,
    isEmitting: bool)

  class RadionicsSimulator {
    var rates: RadionicsRates
    var attachedWitness: Option<RadionicsWitness>
    var energyPool: real
    var resonanceStrength: int
    var emissionLogs: seq<RadionicsEmissionLog>
    var presets: seq<RadionicsPreset>
    var selectedPresetId: string
    var presetName: string
    var isEmitting: bool
    const svc: StorageService

    function State(): Snapshot
      reads this
    {
      Snapshot(rates, attachedWitness, energyPool, resonanceStrength, emissionLogs,
               presets, selectedPresetId, presetName, isEmitting)
    }

    /** The resonance always follows the dials (the effect on `rates`), the
        pool is never negative, the presets are newest first with unique ids
        and the selection is empty or a listed preset. */
    ghost predicate Valid()
      reads this, svc
    {
      && svc.Valid()
      && 0.0 <= energyPool
      && resonanceStrength == Resonance(rates)
      && WellOrdered(presets)
      && (selectedPresetId == "" || HasId(presets, selectedPresetId))
    }

    /** The first render, followed by the first run of the resonance effect. */
    constructor (svc: StorageService)
      requires svc.Valid()
      ensures Valid() && this.svc == svc
      ensures State() == Snapshot(DefaultRadionicsRates, None, MaxEnergyPool, 50, [], [], "", "", false)
    {
      rates := DefaultRadionicsRates;
      attachedWitness := None;
      energyPool := MaxEnergyPool;
      DefaultResonance();
      resonanceStrength := Resonance(DefaultRadionicsRates);
      emissionLogs := [];
      presets := [];
      selectedPresetId := "";
      presetName := "";
      isEmitting := false;
      this.svc := svc;
    }

    /** `loadInitialData`: both lists come from the database, sorted newest
        first; the preset named by the "last active" key, if listed, is
        restored without rewriting the key. A failing read changes nothing. */
    method LoadInitialData()
      requires Valid() && selectedPresetId == ""
      modifies this, svc
      ensures Valid()
      ensures !old(svc.CanOpen()) ==> unchanged(this) && unchanged(svc)
      ensures old(svc.CanOpen()) ==> svc.isOpen && svc.stores == old(svc.OpenStores())
      ensures old(svc.CanOpen()) ==>
        && Shows(presets, svc.stores[RadionicsPresets], AsRadionicsPreset, IdOf)
        && SortedDesc(emissionLogs, Timestamp)
        && Shows(emissionLogs, svc.stores[RadionicsEmissionLogs], AsEmissionLog, LogId)
      ensures old(svc.CanOpen()) ==>
        match Restored(presets, svc.ls.GetItem(LastActiveKey))
        case None =>
          State() == old(State()).(presets := presets, emissionLogs := emissionLogs)
        case Some(p) =>
          State() == old(State()).(presets := presets, emissionLogs := emissionLogs).(
                       rates := p.payload.rates, resonanceStrength := Resonance(p.payload.rates),
                       attachedWitness := p.payload.attachedWitness,
                       selectedPresetId := p.id, presetName := p.name)
    {
      var savedPresets := svc.GetAll(RadionicsPresets);
      if savedPresets.None? {
        return;
      }
      var savedLogs := svc.GetAll(RadionicsEmissionLogs);
      if savedLogs.None? {
        assert false;
        return;
      }
      Show(savedPresets.value, savedLogs.value);
      var restored := Restored(presets, svc.ls.GetItem(LastActiveKey));
      if restored.Some? {
        Apply(restored.value);
      }
    }

    /** Shows what the two stores listed, each sorted newest first. */
    method Show(recs: seq<Record>, logRecs: seq<Record>)
      requires Valid() && selectedPresetId == "" && HasAllStores(svc.stores)
      requires IsListing(recs, svc.stores[RadionicsPresets])
      requires IsListing(logRecs, svc.stores[RadionicsEmissionLogs])
      modifies this
      ensures Valid()
      ensures State() == old(State()).(presets := presets, emissionLogs := emissionLogs)
      ensures Shows(presets, svc.stores[RadionicsPresets], AsRadionicsPreset, IdOf)
      ensures SortedDesc(emissionLogs, Timestamp)
      ensures Shows(emissionLogs, svc.stores[RadionicsEmissionLogs], AsEmissionLog, LogId)
    {
      PresetsShown(recs, svc.stores);
      LogsShown(logRecs, svc.stores);
      presets := Loaded(recs, AsRadionicsPreset);
      emissionLogs := LoadedLogs(logRecs);
    }

    /** Makes a listed preset current: its dials (and so the resonance), its
        witness, its id as the selection and its name. */
    method Apply(p: RadionicsPreset)
      requires Valid() && p in presets
      modifies this
      ensures Valid()
      ensures State() == old(State()).(rates := p.payload.rates, resonanceStrength := Resonance(p.payload.rates),
                                       attachedWitness := p.payload.attachedWitness,
                                       selectedPresetId := p.id, presetName := p.name)
    {
      rates := p.payload.rates;
      resonanceStrength := Resonance(rates);
      attachedWitness := p.payload.attachedWitness;
      selectedPresetId := p.id;
      presetName := p.name;
    }

    /** One tick of the one-second regeneration interval. */
    method Regenerate()
      requires Valid()
      modifies this
      ensures Valid()
      ensures State() == old(State()).(energyPool := Regenerated(old(energyPool)))
    {
      energyPool := Regenerated(energyPool);
    }

    /** `handleRateChange`, followed by the resonance effect. */
    method RateChanged(d: RateDial, v: int)
      requires Valid()
      modifies this
      ensures Valid()
      ensures rates == WithRate(old(rates), d, v)
      ensures State() == old(State()).(rates := rates, resonanceStrength := Resonance(rates))
      ensures RatesInRange(old(rates)) && 0 <= v <= 100 ==> RatesInRange(rates) && 0 <= resonanceStrength <= 100
    {
      rates := WithRate(rates, d, v);
      resonanceStrength := Resonance(rates);
    }

    /** `handleWitnessFileChange`: an image witness named after the file; no
        file, or a file that cannot be read, leaves the witness alone. */
    method WitnessFileChanged(file: Option<PickedFile>)
      requires Valid()
      modifies this
      ensures Valid()
      ensures file.None? || file.value.dataUrl.None? ==> unchanged(this)
      ensures file.Some? && file.value.dataUrl.Some? ==>
        State() == old(State()).(attachedWitness :=
          Some(RadionicsWitness(Image, file.value.dataUrl.value, Some(file.value.name))))
    {
      if file.Some? && file.value.dataUrl.Some? {
        attachedWitness := Some(RadionicsWitness(Image, file.value.dataUrl.value, Some(file.value.name)));
      }
    }

    /** `handleWitnessTextChange`: the text replaces any witness. */
    method WitnessTextChanged(text: string)
      requires Valid()
      modifies this
      ensures Valid()
      ensures State() == old(State()).(attachedWitness := Some(RadionicsWitness(Text, text, None)))
    {
      attachedWitness := Some(RadionicsWitness(Text, text, None));
    }

    method Recharge()
      requires Valid()
      modifies this
      ensures Valid()
      ensures State() == old(State()).(energyPool := MaxEnergyPool)
    {
      energyPool := MaxEnergyPool;
    }

    /** Whether the Emit button is enabled. */
    predicate EmitEnabled()
      reads this
    {
      !isEmitting && !(energyPool < 1.0)
    }

    /** `handleEmit`: an unaffordable emission is refused and changes nothing;
        otherwise the pool pays the cost, the emission starts, and the log is
        added to the database and, once that succeeds, in front of the list.
        `started` says whether the 1.5 s timer that ends the emission was
        set: when the database cannot be opened the handler stops at the
        failed write, the emission never ends and the log is not listed. */
    method Emit(logId: string, now: int) returns (started: bool)
      requires Valid()
      requires GetRecord(svc.OpenStores(), RadionicsEmissionLogs, logId).None?
      modifies this, svc
      ensures Valid()
      ensures !CanAfford(old(energyPool), old(resonanceStrength)) ==>
        !started && unchanged(this) && unchanged(svc)
      ensures CanAfford(old(energyPool), old(resonanceStrength)) ==>
        && started == old(svc.CanOpen())
        && energyPool == old(energyPool) - EmissionCost(old(resonanceStrength))
        && isEmitting
      ensures CanAfford(old(energyPool), old(resonanceStrength)) && old(svc.CanOpen()) ==>
        var log := EmissionLog(logId, now, old(rates), old(resonanceStrength), old(attachedWitness));
        && svc.stores == PutRecord(old(svc.OpenStores()), RadionicsEmissionLogs, EmissionLogRecord(log))
        && State() == old(State()).(energyPool := energyPool, isEmitting := true,
                                    emissionLogs := [log] + old(emissionLogs))
      ensures CanAfford(old(energyPool), old(resonanceStrength)) && !old(svc.CanOpen()) ==>
        && unchanged(svc)
        && State() == old(State()).(energyPool := energyPool, isEmitting := true)
    {
      if energyPool < EmissionCost(resonanceStrength) {
        return false;
      }
      isEmitting := true;
      var cost := EmissionCost(resonanceStrength);
      energyPool := Drained(energyPool, cost);
      var log := EmissionLog(logId, now, rates, resonanceStrength, attachedWitness);
      var ok := svc.Add(RadionicsEmissionLogs, EmissionLogRecord(log));
      if !ok {
        return false;
      }
      emissionLogs := [log] + emissionLogs;
      started := true;
    }

    /** The emission timer firing. */
    method EmissionFinished()
      requires Valid()
      modifies this
      ensures Valid()
      ensures State() == old(State()).(isEmitting := false)
    {
      isEmitting := false;
    }

    /** The name field. */
    method PresetNameChanged(name: string)
      requires Valid()
      modifies this
      ensures Valid()
      ensures State() == old(State()).(presetName := name)
    {
      presetName := name;
    }

    /** `handleSavePreset`: a blank name is refused; otherwise the preset is
        written under a fresh id, joins the list newest first, becomes the
        selection and is remembered as the last active one. A failing write
        stops the handler before the list changes. */
    method SavePreset(id: string, now: int)
      requires Valid()
      requires GetRecord(svc.OpenStores(), RadionicsPresets, id).None? && !HasId(presets, id)
      modifies this, svc, svc.ls
      ensures Valid()
      ensures IsBlank(old(presetName)) || !old(svc.CanOpen()) ==>
        unchanged(this) && unchanged(svc) && unchanged(svc.ls)
      ensures !IsBlank(old(presetName)) && old(svc.CanOpen()) ==>
        var p := Preset(id, Trim(old(presetName)), RadionicsPayload(old(rates), old(attachedWitness)), now);
        && svc.stores == PutRecord(old(svc.OpenStores()), RadionicsPresets, RadionicsPresetRecord(p))
        && State() == old(State()).(presets := WithNew(old(presets), p), selectedPresetId := id)
        && svc.ls.items == (if svc.ls.available then old(svc.ls.items)[LastActiveKey := id] else old(svc.ls.items))
    {
      if IsBlank(presetName) {
        return;
      }
      var p := Preset(id, Trim(presetName), RadionicsPayload(rates, attachedWitness), now);
      var ok := svc.Put(RadionicsPresets, RadionicsPresetRecord(p));
      if !ok {
        return;
      }
      Select(p);
    }

    /** The part of `handleSavePreset` after the write: the new preset joins
        the list, is selected and is remembered. */
    method Select(p: RadionicsPreset)
      requires Valid() && !HasId(presets, p.id)
      modifies this, svc.ls
      ensures Valid()
      ensures State() == old(State()).(presets := WithNew(old(presets), p), selectedPresetId := p.id)
      ensures svc.ls.items == (if svc.ls.available then old(svc.ls.items)[LastActiveKey := p.id] else old(svc.ls.items))
    {
      presets := WithNew(presets, p);
      selectedPresetId := p.id;
      svc.ls.SetItem(LastActiveKey, p.id);
    }

    /** `handleLoadPreset`: a listed preset's dials, witness and name become
        current and it is remembered; an unknown id changes nothing. */
    method LoadPreset(id: string)
      requires Valid()
      modifies this, svc.ls
      ensures Valid()
      ensures !HasId(old(presets), id) ==> unchanged(this) && unchanged(svc.ls)
      ensures HasId(old(presets), id) ==>
        var p := Find(old(presets), IdOf, id).value;
        && p in old(presets) && p.id == id
        && State() == old(State()).(rates := p.payload.rates, resonanceStrength := Resonance(p.payload.rates),
                                    attachedWitness := p.payload.attachedWitness,
                                    selectedPresetId := id, presetName := p.name)
        && svc.ls.items == (if svc.ls.available then old(svc.ls.items)[LastActiveKey := id] else old(svc.ls.items))
    {
      var found := Find(presets, IdOf, id);
      if found.None? {
        return;
      }
      Apply(found.value);
      svc.ls.SetItem(LastActiveKey, id);
    }

    /** `handleDeletePreset`: after confirmation the record is deleted and the
        preset leaves the list; deleting the selected one also clears the
        name, resets the dials, drops the witness and forgets the key. */
    method DeletePreset(id: string, confirmed: bool)
      requires Valid()
      modifies this, svc, svc.ls
      ensures Valid()
      ensures !confirmed || !old(svc.CanOpen()) ==> unchanged(this) && unchanged(svc) && unchanged(svc.ls)
      ensures confirmed && old(svc.CanOpen()) ==>
        && svc.stores == DeleteRecord(old(svc.OpenStores()), RadionicsPresets, id)
        && presets == Without(old(presets), id)
      ensures confirmed && old(svc.CanOpen()) && old(selectedPresetId) != id ==>
        State() == old(State()).(presets := presets) && unchanged(svc.ls)
      ensures confirmed && old(svc.CanOpen()) && old(selectedPresetId) == id ==>
        && State() == old(State()).(presets := presets, selectedPresetId := "", presetName := "",
                                    rates := DefaultRadionicsRates, resonanceStrength := 50,
                                    attachedWitness := None)
        && svc.ls.items == (if svc.ls.available then old(svc.ls.items) - {LastActiveKey} else old(svc.ls.items))
    {
      if !confirmed {
        return;
      }
      var ok := svc.Delete(RadionicsPresets, id);
      if !ok {
        return;
      }
      Forget(id);
    }

    /** The part of `handleDeletePreset` after the record is deleted. */
    method Forget(id: string)
      requires Valid()
      modifies this, svc.ls
      ensures Valid()
      ensures presets == Without(old(presets), id)
      ensures old(selectedPresetId) != id ==> State() == old(State()).(presets := presets) && unchanged(svc.ls)
      ensures old(selectedPresetId) == id ==>
        && State() == old(State()).(presets := presets, selectedPresetId := "", presetName := "",
                                    rates := DefaultRadionicsRates, resonanceStrength := 50,
                                    attachedWitness := None)
        && svc.ls.items == (if svc.ls.available then old(svc.ls.items) - {LastActiveKey} else old(svc.ls.items))
    {
      RemoveKeepsOrder(presets, id);
      presets := Without(presets, id);
      if selectedPresetId == id {
        selectedPresetId := "";
        presetName := "";
        rates := DefaultRadionicsRates;
        DefaultResonance();
        resonanceStrength := Resonance(rates);
        attachedWitness := None;
        svc.ls.RemoveItem(LastActiveKey);
      }
    }

    /** The auto-save effect: with a selection and a non-blank name, the
        selected preset is rewritten with the trimmed name, the current dials
        and witness and its original creation time, in the database (the
        write is not awaited, so its failure changes nothing here) and in
        the list. */
    method AutoSave(now: int)
      requires Valid()
      modifies this, svc
      ensures Valid()
      ensures old(selectedPresetId) == "" || IsBlank(old(presetName)) ==> unchanged(this) && unchanged(svc)
      ensures old(selectedPresetId) != "" && !IsBlank(old(presetName)) ==>
        var u := AutoSaved(old(presets), old(selectedPresetId), old(presetName),
                           RadionicsPayload(old(rates), old(attachedWitness)), now);
        && State() == old(State()).(presets := Replaced(old(presets), u))
        && (old(svc.CanOpen()) ==> svc.stores == PutRecord(old(svc.OpenStores()), RadionicsPresets, RadionicsPresetRecord(u)))
        && (!old(svc.CanOpen()) ==> unchanged(svc))
    {
      if selectedPresetId == "" || IsBlank(presetName) {
        return;
      }
      var u := AutoSaved(presets, selectedPresetId, presetName, RadionicsPayload(rates, attachedWitness), now);
      var _ := svc.Put(RadionicsPresets, RadionicsPresetRecord(u));
      AutoSaveKeepsIds(presets, selectedPresetId, presetName, RadionicsPayload(rates, attachedWitness), now);
      presets := Replaced(presets, u);
    }
  }
}
