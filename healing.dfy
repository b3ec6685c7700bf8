/** Quantum healing: a chakra to focus on, three meters (energy coherence,
    harmony, alignment) that a healing run raises step by step towards
    targets drawn when it starts, and a list of named presets holding a
    chakra and three meter values, with auto-save of the selected one. */
module Healing {
  import opened Common
  import opened Types
  import opened Lists
  import opened Presets
  import opened Storage

  /** The chakras, in display order. */
  const Chakras: seq<string> := ["Root", "Sacral", "Solar Plexus", "Heart", "Throat", "Third Eye", "Crown"]

  /** No target is drawn above this. */
  const TargetCeiling: real := 95.0
  /** A target is the meter plus a random amount below this. */
  const TargetSpread: real := 20.0
  /** Each tick raises a meter by a random amount below this. */
  const StepSpread: real := 5.0
  /** Milliseconds between ticks. */
  const TickMs: nat := 200
  /** The value every meter starts at and is reset to. */
  const MeterDefault: real := 50.0
  const LastActiveKey: string := "quantumHealingLastActivePresetId"

  /** A multiple of 0.01. */
  predicate OnGrid(x: real) {
    (x * 100.0).Floor as real == x * 100.0
  }

  /** `parseFloat(x.toFixed(2))`, as rounding half up to two decimals. */
  function Round2(x: real): (r: real)
    ensures x - 0.005 < r <= x + 0.005
    ensures OnGrid(r)
  {
    var n := Round(x * 100.0);
    assert (n as real / 100.0) * 100.0 == n as real;
    n as real / 100.0
  }

  /** Rounding never reorders two values. */
  lemma Round2Monotone(x: real, y: real)
    requires x <= y
    ensures Round2(x) <= Round2(y)
  {
    var n := Round(x * 100.0);
    var m := Round(y * 100.0);
    assert n <= m by {
      assert x * 100.0 + 0.5 <= y * 100.0 + 0.5;
    }
    assert n as real / 100.0 <= m as real / 100.0;
  }

  /** A value already on the grid is left as it is. */
  lemma Round2OnGrid(x: real)
    requires OnGrid(x)
    ensures Round2(x) == x
  {
    var n := (x * 100.0).Floor;
    assert n as real == x * 100.0;
    assert (x * 100.0 + 0.5).Floor == n;
    assert n as real / 100.0 == x;
  }

  /** `Math.min(95, value + r)` with `r = Math.random() * 20`. */
  function Target(value: real, r: real): (t: real)
    requires 0.0 <= r < TargetSpread
    ensures t <= TargetCeiling
    ensures t == TargetCeiling || (value <= t < value + TargetSpread)
    ensures value <= TargetCeiling ==> value <= t
  {
    MinReal(TargetCeiling, value + r)
  }

  /** One meter's move on a tick: below its target it rises by `q`, but not
      past the target; at or above its target it stays. */
  function Step(prev: real, target: real, q: real): (next: real)
    requires 0.0 <= q < StepSpread
    ensures prev <= next < prev + StepSpread
    ensures prev < target ==> next <= target
    ensures prev >= target ==> next == prev
  {
    if prev < target then MinReal(target, prev + q) else prev
  }

  /** The targets a healing run was started with (kept by the interval). */
  datatype Targets = Targets(coherence: real, harmony: real, alignment: real)

  /** A tick with the three meters on the grid never lowers any of them,
      keeps them on the grid, and leaves a meter that was at most its target
      no more than half a hundredth above it. */
  lemma TickNeverLowers(prev: real, target: real, q: real)
    requires 0.0 <= q < StepSpread && OnGrid(prev)
    ensures prev <= Round2(Step(prev, target, q))
    ensures OnGrid(Round2(Step(prev, target, q)))
    ensures prev <= target ==> Round2(Step(prev, target, q)) <= target + 0.005
  {
    Round2Monotone(prev, Step(prev, target, q));
    Round2OnGrid(prev);
  }

  /** No target of a run exceeds 95. */
  predicate Capped(t: Targets) {
    t.coherence <= TargetCeiling && t.harmony <= TargetCeiling && t.alignment <= TargetCeiling
  }

  function ChakraOf(p: HealingPreset): string { p.payload.chakraFocus }

  datatype Snapshot = Snapshot(
    activeChakra: string,
    energyCoherence: real,
    harmonyMeter: real,
    alignmentIndicator: real,
    isHealing: bool,
    interval: Option<Targets>,
    healingPresets: seq<HealingPreset>,
    selectedPresetId: string,
    presetName: string)

  /** What `loadPreset` sets: the preset's name, chakra and meter values,
      and its id as the selection. */
  function Loading(s: Snapshot, p: HealingPreset): (r: Snapshot)
    ensures r.healingPresets == s.healingPresets && r.isHealing == s.isHealing && r.interval == s.interval
    ensures PayloadOf(r) == p.payload && r.selectedPresetId == p.id && r.presetName == p.name
  {
    s.(presetName := p.name, activeChakra := p.payload.chakraFocus,
       energyCoherence := p.payload.energyCoherenceTarget,
       harmonyMeter := p.payload.harmonyMeterTarget,
       alignmentIndicator := p.payload.alignmentIndicatorTarget,
       selectedPresetId := p.id)
  }

  /** The chakra and meters a snapshot would save. */
  function PayloadOf(s: Snapshot): HealingPayload {
    HealingPayload(s.activeChakra, s.energyCoherence, s.harmonyMeter, s.alignmentIndicator)
  }

  lemma PresetsShown(recs: seq<Record>, db: Db)
    requires WellFormed(db) && HealingPresets in db && IsListing(recs, db[HealingPresets])
    ensures WellOrdered(Loaded(recs, AsHealingPreset))
    ensures Shows(Loaded(recs, AsHealingPreset), db[HealingPresets], AsHealingPreset, IdOf)
  {
    var m := db[HealingPresets];
    assert forall k :: k in m ==> AsHealingPreset(m[k]).Some? && IdOf(AsHealingPreset(m[k]).value) == k;
    LoadedFromListing(recs, m, AsHealingPreset);
  }

  class QuantumHealing {
    var activeChakra: string
    var energyCoherence: real
    var harmonyMeter: real
    var alignmentIndicator: real
    var isHealing: bool
    /** The running interval and the targets it closes over. */
    var interval: Option<Targets>
    var healingPresets: seq<HealingPreset>
    var selectedPresetId: string
    var presetName: string
    const svc: StorageService

    function State(): Snapshot
      reads this
    {
      Snapshot(activeChakra, energyCoherence, harmonyMeter, alignmentIndicator, isHealing, interval,
               healingPresets, selectedPresetId, presetName)
    }

    /** An interval runs exactly while healing, with targets of at most 95;
        the presets are newest first
        with unique ids and the selection is empty or listed. */
    ghost predicate Valid()
      reads this, svc
    {
      && svc.Valid()
      && (isHealing <==> interval.Some?)
      && (interval.Some? ==> Capped(interval.value))
      && WellOrdered(healingPresets)
      && (selectedPresetId == "" || HasId(healingPresets, selectedPresetId))
    }

    constructor (svc: StorageService)
      requires svc.Valid()
      ensures Valid() && this.svc == svc
      ensures State() == Snapshot("", MeterDefault, MeterDefault, MeterDefault, false, None, [], "", "")
    {
      activeChakra := "";
      energyCoherence := MeterDefault;
      harmonyMeter := MeterDefault;
      alignmentIndicator := MeterDefault;
      isHealing := false;
      interval := None;
      healingPresets := [];
      selectedPresetId := "";
      presetName := "";
      this.svc := svc;
    }

    /** `loadInitialData`: the presets come from the database newest first;
        the preset named by the "last active" key, if listed, is loaded (and
        the key written again). A failing read changes nothing. */
    method LoadInitialData()
      requires Valid() && selectedPresetId == ""
      modifies this, svc, svc.ls
      ensures Valid()
      ensures !old(svc.CanOpen()) ==> unchanged(this) && unchanged(svc) && unchanged(svc.ls)
      ensures old(svc.CanOpen()) ==>
        && svc.isOpen && svc.stores == old(svc.OpenStores())
        && Shows(healingPresets, svc.stores[HealingPresets], AsHealingPreset, IdOf)
      ensures old(svc.CanOpen()) ==>
        match Restored(healingPresets, old(svc.ls.GetItem(LastActiveKey)))
        case None =>
          State() == old(State()).(healingPresets := healingPresets) && unchanged(svc.ls)
        case Some(p) =>
          && State() == Loading(old(State()).(healingPresets := healingPresets), p)
          && svc.ls.items == (if svc.ls.available then old(svc.ls.items)[LastActiveKey := p.id] else old(svc.ls.items))
    {
      var saved := svc.GetAll(HealingPresets);
      if saved.None? {
        return;
      }
      Show(saved.value);
      Restore();
    }

    /** Loads the preset the "last active" key names, if it is listed. */
    method Restore()
      requires Valid()
      modifies this, svc.ls
      ensures Valid()
      ensures match Restored(healingPresets, old(svc.ls.GetItem(LastActiveKey)))
        case None => unchanged(this) && unchanged(svc.ls)
        case Some(p) =>
          && State() == Loading(old(State()), p)
          && svc.ls.items == (if svc.ls.available then old(svc.ls.items)[LastActiveKey := p.id] else old(svc.ls.items))
    {
      var restored := Restored(healingPresets, svc.ls.GetItem(LastActiveKey));
      if restored.Some? {
        Apply(restored.value);
      }
    }

    method Show(recs: seq<Record>)
      requires Valid() && selectedPresetId == "" && HasAllStores(svc.stores)
      requires IsListing(recs, svc.stores[HealingPresets])
      modifies this
      ensures Valid()
      ensures State() == old(State()).(healingPresets := healingPresets)
      ensures Shows(healingPresets, svc.stores[HealingPresets], AsHealingPreset, IdOf)
    {
      PresetsShown(recs, svc.stores);
      healingPresets := Loaded(recs, AsHealingPreset);
    }

    /** `loadPreset`: a listed preset's name, chakra and meter values become
        current, it is selected and remembered. */
    method Apply(p: HealingPreset)
      requires Valid() && p in healingPresets
      modifies this, svc.ls
      ensures Valid()
      ensures State() == Loading(old(State()), p)
      ensures svc.ls.items == (if svc.ls.available then old(svc.ls.items)[LastActiveKey := p.id] else old(svc.ls.items))
    {
      presetName := p.name;
      activeChakra := p.payload.chakraFocus;
      energyCoherence := p.payload.energyCoherenceTarget;
      harmonyMeter := p.payload.harmonyMeterTarget;
      alignmentIndicator := p.payload.alignmentIndicatorTarget;
      selectedPresetId := p.id;
      svc.ls.SetItem(LastActiveKey, p.id);
    }

    /** A click on a chakra focuses it. */
    method ChakraClicked(name: string)
      requires Valid()
      modifies this
      ensures Valid()
      ensures State() == old(State()).(activeChakra := name)
    {
      activeChakra := name;
    }

    /** Whether the Initiate button is enabled. */
    predicate StartEnabled()
      reads this
    {
      !isHealing && activeChakra != ""
    }

    /** `startHealing`: ignored while a run is in progress; otherwise each
        target is the meter plus its random amount, capped at 95, and the
        interval starts. `r1`..`r3` are the three draws of `Math.random() * 20`. */
    method StartHealing(r1: real, r2: real, r3: real)
      requires Valid()
      requires 0.0 <= r1 < TargetSpread && 0.0 <= r2 < TargetSpread && 0.0 <= r3 < TargetSpread
      modifies this
      ensures Valid()
      ensures old(isHealing) ==> unchanged(this)
      ensures !old(isHealing) ==>
        && State() == old(State()).(isHealing := true, interval := interval)
        && interval == Some(Targets(Target(energyCoherence, r1), Target(harmonyMeter, r2), Target(alignmentIndicator, r3)))
    {
      if isHealing {
        return;
      }
      isHealing := true;
      interval := Some(Targets(Target(energyCoherence, r1), Target(harmonyMeter, r2), Target(alignmentIndicator, r3)));
    }

    /** One tick of the healing interval: every meter below its target moves
        towards it, each stored to two decimals; once all three unrounded
        values reach their targets, the interval is cleared and healing
        ends. `q1`..`q3` are the draws of `Math.random() * 5`. */
    method Tick(q1: real, q2: real, q3: real) returns (done: bool)
      requires Valid() && interval.Some?
      requires 0.0 <= q1 < StepSpread && 0.0 <= q2 < StepSpread && 0.0 <= q3 < StepSpread
      modifies this
      ensures Valid()
      ensures var t := old(interval.value);
        var c := Step(old(energyCoherence), t.coherence, q1);
        var h := Step(old(harmonyMeter), t.harmony, q2);
        var a := Step(old(alignmentIndicator), t.alignment, q3);
        && done == (c >= t.coherence && h >= t.harmony && a >= t.alignment)
        && State() == old(State()).(energyCoherence := Round2(c), harmonyMeter := Round2(h),
                                    alignmentIndicator := Round2(a),
                                    isHealing := !done && old(isHealing),
                                    interval := if done then None else old(interval))
    {
      var t := interval.value;
      var c := Step(energyCoherence, t.coherence, q1);
      var h := Step(harmonyMeter, t.harmony, q2);
      var a := Step(alignmentIndicator, t.alignment, q3);
      done := c >= t.coherence && h >= t.harmony && a >= t.alignment;
      if done {
        interval := None;
        isHealing := false;
      }
      energyCoherence := Round2(c);
      harmonyMeter := Round2(h);
      alignmentIndicator := Round2(a);
    }

    /** `stopHealing`: always ends the run. */
    method StopHealing()
      requires Valid()
      modifies this
      ensures Valid()
      ensures State() == old(State()).(isHealing := false, interval := None)
    {
      isHealing := false;
      interval := None;
    }

    method PresetNameChanged(name: string)
      requires Valid()
      modifies this
      ensures Valid()
      ensures State() == old(State()).(presetName := name)
    {
      presetName := name;
    }

    /** `handleSavePreset`: a blank name is refused; otherwise the current
        chakra and meters are written under a fresh id, the preset joins the
        list newest first, is selected and remembered. A failing write stops
        the handler before the list changes. */
    method SavePreset(id: string, now: int)
      requires Valid()
      requires GetRecord(svc.OpenStores(), HealingPresets, id).None? && !HasId(healingPresets, id)
      modifies this, svc, svc.ls
      ensures Valid()
      ensures IsBlank(old(presetName)) || !old(svc.CanOpen()) ==>
        unchanged(this) && unchanged(svc) && unchanged(svc.ls)
      ensures !IsBlank(old(presetName)) && old(svc.CanOpen()) ==>
        var p := Preset(id, Trim(old(presetName)), HealingPayload(old(activeChakra), old(energyCoherence), old(harmonyMeter), old(alignmentIndicator)), now);
        && svc.stores == PutRecord(old(svc.OpenStores()), HealingPresets, HealingPresetRecord(p))
        && State() == old(State()).(healingPresets := WithNew(old(healingPresets), p), selectedPresetId := id)
        && svc.ls.items == (if svc.ls.available then old(svc.ls.items)[LastActiveKey := id] else old(svc.ls.items))
    {
      if IsBlank(presetName) {
        return;
      }
      var p := Preset(id, Trim(presetName), HealingPayload(activeChakra, energyCoherence, harmonyMeter, alignmentIndicator), now);
      var ok := svc.Put(HealingPresets, HealingPresetRecord(p));
      if !ok {
        return;
      }
      Select(p);
    }

    method Select(p: HealingPreset)
      requires Valid() && !HasId(healingPresets, p.id)
      modifies this, svc.ls
      ensures Valid()
      ensures State() == old(State()).(healingPresets := WithNew(old(healingPresets), p), selectedPresetId := p.id)
      ensures svc.ls.items == (if svc.ls.available then old(svc.ls.items)[LastActiveKey := p.id] else old(svc.ls.items))
    {
      healingPresets := WithNew(healingPresets, p);
      selectedPresetId := p.id;
      svc.ls.SetItem(LastActiveKey, p.id);
    }

    /** `handleLoadPreset`: loads a listed preset; an unknown id changes nothing. */
    method LoadPreset(id: string)
      requires Valid()
      modifies this, svc.ls
      ensures Valid()
      ensures !HasId(old(healingPresets), id) ==> unchanged(this) && unchanged(svc.ls)
      ensures HasId(old(healingPresets), id) ==>
        var p := Find(old(healingPresets), IdOf, id).value;
        && p in old(healingPresets) && p.id == id
        && State() == Loading(old(State()), p)
        && svc.ls.items == (if svc.ls.available then old(svc.ls.items)[LastActiveKey := id] else old(svc.ls.items))
    {
      var found := Find(healingPresets, IdOf, id);
      if found.None? {
        return;
      }
      Apply(found.value);
    }

    /** `handleDeletePreset`: after confirmation the record is deleted and the
        preset leaves the list; deleting the selected one also clears the
        name and chakra, resets the meters to 50 and forgets the key. */
    method DeletePreset(id: string, confirmed: bool)
      requires Valid()
      modifies this, svc, svc.ls
      ensures Valid()
      ensures !confirmed || !old(svc.CanOpen()) ==> unchanged(this) && unchanged(svc) && unchanged(svc.ls)
      ensures confirmed && old(svc.CanOpen()) ==>
        && svc.stores == DeleteRecord(old(svc.OpenStores()), HealingPresets, id)
        && healingPresets == Without(old(healingPresets), id)
      ensures confirmed && old(svc.CanOpen()) && old(selectedPresetId) != id ==>
        State() == old(State()).(healingPresets := healingPresets) && unchanged(svc.ls)
      ensures confirmed && old(svc.CanOpen()) && old(selectedPresetId) == id ==>
        && State() == old(State()).(healingPresets := healingPresets, presetName := "", activeChakra := "",
                                    energyCoherence := MeterDefault, harmonyMeter := MeterDefault,
                                    alignmentIndicator := MeterDefault, selectedPresetId := "")
        && svc.ls.items == (if svc.ls.available then old(svc.ls.items) - {LastActiveKey} else old(svc.ls.items))
    {
      if !confirmed {
        return;
      }
      var ok := svc.Delete(HealingPresets, id);
      if !ok {
        return;
      }
      Forget(id);
    }

    method Forget(id: string)
      requires Valid()
      modifies this, svc.ls
      ensures Valid()
      ensures healingPresets == Without(old(healingPresets), id)
      ensures old(selectedPresetId) != id ==> State() == old(State()).(healingPresets := healingPresets) && unchanged(svc.ls)
      ensures old(selectedPresetId) == id ==>
        && State() == old(State()).(healingPresets := healingPresets, presetName := "", activeChakra := "",
                                    energyCoherence := MeterDefault, harmonyMeter := MeterDefault,
                                    alignmentIndicator := MeterDefault, selectedPresetId := "")
        && svc.ls.items == (if svc.ls.available then old(svc.ls.items) - {LastActiveKey} else old(svc.ls.items))
    {
      RemoveKeepsOrder(healingPresets, id);
      healingPresets := Without(healingPresets, id);
      if selectedPresetId == id {
        presetName := "";
        activeChakra := "";
        energyCoherence := MeterDefault;
        harmonyMeter := MeterDefault;
        alignmentIndicator := MeterDefault;
        selectedPresetId := "";
        svc.ls.RemoveItem(LastActiveKey);
      }
    }

    /** The auto-save effect: with a selection and a non-blank name, the
        selected preset is rewritten with the trimmed name, the current chakra
        and meters and its original creation time, in the database (not
        awaited) and in the list. */
    method AutoSave(now: int)
      requires Valid()
      modifies this, svc
      ensures Valid()
      ensures old(selectedPresetId) == "" || IsBlank(old(presetName)) ==> unchanged(this) && unchanged(svc)
      ensures old(selectedPresetId) != "" && !IsBlank(old(presetName)) ==>
        var u := AutoSaved(old(healingPresets), old(selectedPresetId), old(presetName), HealingPayload(old(activeChakra), old(energyCoherence), old(harmonyMeter), old(alignmentIndicator)), now);
        && State() == old(State()).(healingPresets := Replaced(old(healingPresets), u))
        && (old(svc.CanOpen()) ==> svc.stores == PutRecord(old(svc.OpenStores()), HealingPresets, HealingPresetRecord(u)))
        && (!old(svc.CanOpen()) ==> unchanged(svc))
    {
      if selectedPresetId == "" || IsBlank(presetName) {
        return;
      }
      var payload := HealingPayload(activeChakra, energyCoherence, harmonyMeter, alignmentIndicator);
      var u := AutoSaved(healingPresets, selectedPresetId, presetName, payload, now);
      AutoSaveKeepsIds(healingPresets, selectedPresetId, presetName, payload, now);
      var _ := svc.Put(HealingPresets, HealingPresetRecord(u));
      healingPresets := Replaced(healingPresets, u);
    }
  }
}
