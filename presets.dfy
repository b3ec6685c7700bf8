/** The preset-manager pattern shared by the radionics, healing, frequency
    and subliminal-maker modules: a list kept newest first, a new preset
    prepended and re-sorted, and auto-save rewriting the selected preset
    in place while keeping its creation time. */
module Presets {
  import opened Common
  import opened Types
  import opened Lists
  import opened Storage

  function CreatedAt<P>(p: Preset<P>): int { p.createdAt }

  function IdOf<P>(p: Preset<P>): string { p.id }

  /** No two presets in the list share an id. */
  predicate UniqueIds<P>(s: seq<Preset<P>>) {
    DistinctBy(s, IdOf)
  }

  predicate HasId<P>(s: seq<Preset<P>>, id: string) {
    exists i :: 0 <= i < |s| && s[i].id == id
  }

  /** The invariant of every preset list: newest first, ids unique. */
  predicate WellOrdered<P>(s: seq<Preset<P>>) {
    SortedDesc(s, CreatedAt) && UniqueIds(s)
  }

  /** `[p, ...prev].sort((a, b) => b.createdAt - a.createdAt)`. */
  function WithNew<P(==)>(prev: seq<Preset<P>>, p: Preset<P>): (r: seq<Preset<P>>)
    requires WellOrdered(prev) && !HasId(prev, p.id)
    ensures WellOrdered(r)
    ensures multiset(r) == multiset(prev) + multiset{p}
    ensures HasId(r, p.id)
    ensures forall id :: HasId(r, id) <==> HasId(prev, id) || id == p.id
  {
    SortDescSorted([p] + prev, CreatedAt);
    var r := SortDesc([p] + prev, CreatedAt);
    assert multiset(r) == multiset([p] + prev);
    forall id ensures HasId(r, id) <==> HasId(prev, id) || id == p.id {
      if HasId(r, id) {
        var i :| 0 <= i < |r| && r[i].id == id;
        assert r[i] in multiset([p] + prev);
        assert r[i] in [p] + prev;
      }
      if HasId(prev, id) {
        var i :| 0 <= i < |prev| && prev[i].id == id;
        assert prev[i] in multiset(r);
      }
      if id == p.id {
        assert p in multiset(r);
      }
    }
    UniqueAfterInsert(prev, p, r);
    r
  }

  lemma UniqueAfterInsert<P>(prev: seq<Preset<P>>, p: Preset<P>, r: seq<Preset<P>>)
    requires UniqueIds(prev) && !HasId(prev, p.id)
    requires multiset(r) == multiset([p] + prev)
    ensures UniqueIds(r)
  {
    var s := [p] + prev;
    PrependKeepsDistinct(p, prev, IdOf);
    PermutationKeepsDistinct(s, r, IdOf);
  }

  /** A preset created now, when the clock has not gone backwards, goes to
      the front and the others keep their places. */
  lemma NewestGoesFirst<P>(prev: seq<Preset<P>>, p: Preset<P>)
    requires WellOrdered(prev) && !HasId(prev, p.id)
    requires forall i :: 0 <= i < |prev| ==> prev[i].createdAt <= p.createdAt
    ensures WithNew(prev, p) == [p] + prev
  {
    forall y | y in prev ensures CreatedAt(y) <= CreatedAt(p) {
      var i :| 0 <= i < |prev| && prev[i] == y;
    }
    PrependNewest(p, prev, CreatedAt);
  }

  /** The record auto-save writes for the selected preset: the trimmed name,
      the current payload, and the creation time of the first listed preset
      with that id (`Date.now()` when there is none). */
  function AutoSaved<P(==)>(presets: seq<Preset<P>>, id: string, name: string, payload: P, now: int): (r: Preset<P>)
    ensures r.id == id && r.name == Trim(name) && r.payload == payload
    ensures !HasId(presets, id) ==> r.createdAt == now
    ensures HasId(presets, id) ==> exists i :: 0 <= i < |presets| && presets[i].id == id && r.createdAt == presets[i].createdAt
  {
    var found := Find(presets, IdOf, id);
    if found.Some? then
      ghost var i :| 0 <= i < |presets| && presets[i] == found.value && IdOf(found.value) == id;
      assert presets[i].id == id;
      Preset(id, Trim(name), payload, found.value.createdAt)
    else
      assert forall i :: 0 <= i < |presets| ==> IdOf(presets[i]) != id;
      Preset(id, Trim(name), payload, now)
  }

  /** With unique ids, auto-save keeps the creation time of the one preset
      it rewrites. */
  lemma AutoSavedKeepsCreatedAt<P>(presets: seq<Preset<P>>, i: nat, name: string, payload: P, now: int)
    requires UniqueIds(presets) && i < |presets|
    ensures AutoSaved(presets, presets[i].id, name, payload, now).createdAt == presets[i].createdAt
  {
    var r := AutoSaved(presets, presets[i].id, name, payload, now);
    var j :| 0 <= j < |presets| && presets[j].id == presets[i].id && r.createdAt == presets[j].createdAt;
  }

  /** `prev.map(p => p.id === updated.id ? updated : p)` after auto-save. */
  function Replaced<P(==)>(presets: seq<Preset<P>>, updated: Preset<P>): seq<Preset<P>> {
    ReplaceById(presets, IdOf, updated.id, updated)
  }

  /** Rewriting one preset of a well-ordered list by a record with the same
      id and creation time keeps the list well ordered, id for id, and a
      second rewrite changes nothing. */
  lemma ReplacedKeepsOrder<P>(presets: seq<Preset<P>>, i: nat, u: Preset<P>)
    requires WellOrdered(presets) && i < |presets|
    requires u.id == presets[i].id && u.createdAt == presets[i].createdAt
    ensures var l := Replaced(presets, u);
      && |l| == |presets| && l[i] == u
      && (forall j :: 0 <= j < |l| ==> l[j].id == presets[j].id)
      && WellOrdered(l)
      && Replaced(l, u) == l
  {
    forall x | x in presets && IdOf(x) == u.id ensures CreatedAt(x) == CreatedAt(u) {
      var j :| 0 <= j < |presets| && presets[j] == x;
    }
    ReplaceKeepsOrder(presets, IdOf, u.id, u, CreatedAt);
  }

  /** Auto-save keeps the list newest first with the same ids, and a
      re-run on the list it produced (the list is one of the effect's
      dependencies) writes the same record and yields an equal list. */
  lemma AutoSaveStable<P>(presets: seq<Preset<P>>, i: nat, name: string, payload: P, now: int, later: int)
    requires WellOrdered(presets) && i < |presets|
    ensures var id := presets[i].id;
      var u := AutoSaved(presets, id, name, payload, now);
      var l := Replaced(presets, u);
      && WellOrdered(l)
      && (forall k :: HasId(l, k) <==> HasId(presets, k))
      && AutoSaved(l, id, name, payload, later) == u
      && Replaced(l, u) == l
  {
    var id := presets[i].id;
    var u := AutoSaved(presets, id, name, payload, now);
    AutoSavedKeepsCreatedAt(presets, i, name, payload, now);
    ReplacedKeepsOrder(presets, i, u);
    var l := Replaced(presets, u);
    SameIdsSameHasId(presets, l);
    AutoSavedKeepsCreatedAt(l, i, name, payload, later);
  }

  /** Auto-save of a listed id keeps the list well ordered with the same ids. */
  lemma AutoSaveKeepsIds<P>(presets: seq<Preset<P>>, id: string, name: string, payload: P, now: int)
    requires WellOrdered(presets) && HasId(presets, id)
    ensures var l := Replaced(presets, AutoSaved(presets, id, name, payload, now));
      WellOrdered(l) && forall k :: HasId(l, k) <==> HasId(presets, k)
  {
    var i :| 0 <= i < |presets| && presets[i].id == id;
    AutoSaveStable(presets, i, name, payload, now, now);
  }

  lemma SameIdsSameHasId<P>(s: seq<Preset<P>>, t: seq<Preset<P>>)
    requires |s| == |t| && forall j :: 0 <= j < |s| ==> s[j].id == t[j].id
    ensures forall k :: HasId(s, k) <==> HasId(t, k)
  {
    forall k ensures HasId(s, k) <==> HasId(t, k) {
      if HasId(s, k) {
        var j :| 0 <= j < |s| && s[j].id == k;
        assert t[j].id == k;
      }
      if HasId(t, k) {
        var j :| 0 <= j < |t| && t[j].id == k;
        assert s[j].id == k;
      }
    }
  }

  /** `prev.filter(p => p.id !== id)`. */
  function Without<P(==)>(presets: seq<Preset<P>>, id: string): seq<Preset<P>> {
    Filter(presets, (p: Preset<P>) => p.id != id)
  }

  /** Removing a preset keeps the list newest first and drops exactly that id. */
  lemma RemoveKeepsOrder<P>(presets: seq<Preset<P>>, id: string)
    requires WellOrdered(presets)
    ensures WellOrdered(Without(presets, id))
    ensures !HasId(Without(presets, id), id)
    ensures forall k :: k != id ==> (HasId(Without(presets, id), k) <==> HasId(presets, k))
  {
    var keep := (p: Preset<P>) => p.id != id;
    var r := Filter(presets, keep);
    assert r == Without(presets, id);
    FilterKeepsSorted(presets, keep, CreatedAt);
    forall k | k != id ensures HasId(r, k) <==> HasId(presets, k) {
      if HasId(presets, k) {
        var i :| 0 <= i < |presets| && presets[i].id == k;
        assert presets[i] in r;
        var j :| 0 <= j < |r| && r[j] == presets[i];
      }
    }
    FilterKeepsDistinct(presets, keep, IdOf);
  }

  /** The list a module shows after loading: the records `getAll` listed,
      sorted newest first. */
  function Loaded<P(==)>(recs: seq<Record>, pick: Record -> Option<Preset<P>>): seq<Preset<P>> {
    SortDesc(Collect(recs, pick), CreatedAt)
  }

  /** Loading shows every stored preset once, newest first. */
  lemma LoadedFromListing<P>(recs: seq<Record>, m: map<string, Record>, pick: Record -> Option<Preset<P>>)
    requires IsListing(recs, m)
    requires forall k :: k in m ==> pick(m[k]).Some? && IdOf(pick(m[k]).value) == k
    ensures WellOrdered(Loaded(recs, pick)) && Shows(Loaded(recs, pick), m, pick, IdOf)
  {
    SortedListing(recs, m, pick, IdOf, CreatedAt);
  }

  /** The preset a module restores on mount from its "last active" key:
      none when the key is missing or empty (falsy), or names no listed
      preset. */
  function Restored<P(==)>(presets: seq<Preset<P>>, stored: Option<string>): (r: Option<Preset<P>>)
    ensures r.Some? ==> stored == Some(r.value.id) && r.value.id != "" && r.value in presets
    ensures r.None? <==> stored.None? || stored.value == "" || !HasId(presets, stored.value)
  {
    if stored.None? || stored.value == "" then None
    else Find(presets, IdOf, stored.value)
  }
}
