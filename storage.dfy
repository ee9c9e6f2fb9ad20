/**
 * The older persistence module src/lib/storage.js: the whole data set lives
 * in one localStorage entry. Every operation first loads it (repairing each
 * site's checklist and writing the repaired data back when anything
 * changed), then reads or updates the first matching site in place and
 * saves the result.
 *
 * The storage entry is the field `stored` of a class. JSON text is not
 * modelled: an entry either holds a data set that round-trips through
 * JSON, or is absent/empty, or does not parse.
 */
module LegacyStorage {
  import opened Wrappers
  import opened Domain
  import opened Seed
  import opened Lists
  import opened Checklist
  import opened Progress

  /** The JSON document: `sites` may be missing. */
  datatype StoredData = StoredData(sites: Option<seq<RawSite>>)

  /**
   * The localStorage entry: `Vacant` for `null` or the empty string (both
   * falsy), `Garbled` for text that `JSON.parse` rejects or that parses to
   * `null` (reading `.sites` of it throws), `Holds` for a parsed document.
   */
  datatype Slot = Vacant | Garbled | Holds(data: StoredData)

  /**
   * The value an operation hands back: a `TypeError` thrown by reading
   * through a missing `sites` array, `null`, or a value.
   */
  datatype Outcome<+T> = Threw | Null | Value(value: T)

  /** `getInitialData()`. */
  const InitialData := StoredData(Some(LegacySites()))

  /** A site whose checklist `loadData` repairs: missing, of the wrong length, or holding a foreign id. */
  predicate Changes(site: RawSite) {
    site.checklist.None? || |site.checklist.value| != ChecklistSize || HasForeignId(site.checklist.value)
  }

  /** What the `forEach` body makes of one site: the same repair as `validateAndUpdateChecklist`. */
  function RepairSite(site: RawSite): (r: RawSite)
    ensures r.id == site.id && r.name == site.name && r.timeline == site.timeline
    ensures r.checklist == Some(Validate(site.checklist))
  {
    site.(checklist := Some(Validate(site.checklist)))
  }

  function RepairAll(sites: seq<RawSite>): (r: seq<RawSite>)
    ensures |r| == |sites|
    ensures forall i :: 0 <= i < |r| ==> r[i] == RepairSite(sites[i])
  {
    seq(|sites|, i requires 0 <= i < |sites| => RepairSite(sites[i]))
  }

  /** The data `loadData` returns for an entry. */
  function Loaded(slot: Slot): StoredData {
    match slot
    case Holds(d) =>
      if d.sites.Some? && |d.sites.value| > 0 then StoredData(Some(RepairAll(d.sites.value))) else d
    case _ => InitialData
  }

  /** `needsUpdate`: the entry holds sites and at least one of them has its checklist repaired. */
  predicate SavesOnLoad(slot: Slot) {
    slot.Holds? && slot.data.sites.Some? &&
    exists i :: 0 <= i < |slot.data.sites.value| && Changes(slot.data.sites.value[i])
  }

  /** The entry after `loadData`: rewritten with the repaired data exactly when something was repaired. */
  function AfterLoad(slot: Slot): Slot {
    if SavesOnLoad(slot) then Holds(Loaded(slot)) else slot
  }

  /** `{ ...site, ...updates }` for the keys of a site. */
  datatype SitePatch = SitePatch(
    id: Update<string>, name: Update<string>,
    timeline: Update<seq<TimelineItem>>, checklist: Update<Option<seq<ChecklistItem>>>)

  function ApplySitePatch(site: RawSite, p: SitePatch): RawSite {
    RawSite(Over(p.id, site.id), Over(p.name, site.name), Over(p.timeline, site.timeline), Over(p.checklist, site.checklist))
  }

  function RawSiteIndex(sites: seq<RawSite>, id: string): (k: nat)
    ensures k <= |sites|
    ensures k < |sites| ==> sites[k].id == id
    ensures forall j :: 0 <= j < k ==> sites[j].id != id
  {
    FirstIndex(sites, (s: RawSite) => s.id == id)
  }

  /** The result of `calculateProgress` in this module: percentages only; `None` stands for NaN. */
  datatype LegacyProgress = LegacyProgress(timeline: Option<int>, checklist: Option<int>, overall: Option<int>)

  const LegacyZero := LegacyProgress(Some(0), Some(0), Some(0))

  /** One point for `rnd === 'completed'` and one for `field === 'completed'`. */
  function TeamPoints(item: TimelineItem): nat {
    (if item.rnd == Some("completed") then 1 else 0) + (if item.field == Some("completed") then 1 else 0)
  }

  /** The `reduce` over the timeline. */
  function TeamsCompleted(t: seq<TimelineItem>): (n: nat)
    ensures n <= 2 * |t|
  {
    if t == [] then 0 else TeamPoints(t[0]) + TeamsCompleted(t[1..])
  }

  /** Both teams have completed the item. */
  predicate BothDone(item: TimelineItem) {
    item.rnd == Some("completed") && item.field == Some("completed")
  }

  /** Percentages out of `2 * |timeline|` team slots and `|checklist|` items, weighted 70/30 and rounded once. */
  function TeamProgress(timeline: seq<TimelineItem>, checklist: seq<ChecklistItem>): LegacyProgress {
    var t := 2 * |timeline|;
    var c := TeamsCompleted(timeline);
    var n := |checklist|;
    var k := CountChecked(checklist);
    LegacyProgress(
      Percent(c, t), Percent(k, n),
      // 0.7 * (100c/t) + 0.3 * (100k/n) == (70cn + 30kt) / (tn)
      if t == 0 || n == 0 then None else Some(Round(70 * (c * n) + 30 * (k * t), t * n)))
  }

  /**
   * The body of the `forEach` over the sites: a missing checklist becomes the
   * canonical one, a wrong-length one is rebuilt, a foreign id is filtered
   * out. `changed` is the value that body assigns to `needsUpdate`.
   */
  method RepairChecklist(site: RawSite) returns (r: RawSite, changed: bool)
    ensures r == RepairSite(site)
    ensures changed == Changes(site)
    ensures changed <==> r != site
  {
    ValidateChangesIffMissing(site);
    r, changed := site, false;
    if site.checklist.Some? {
      var checklist := site.checklist.value;
      if |checklist| != ChecklistSize {
        var newChecklist := ValidateAndUpdateChecklist(site.checklist);
        r, changed := site.(checklist := Some(newChecklist)), true;
      } else {
        var hasInvalidId := exists j :: 0 <= j < |checklist| && !ValidId(checklist[j].id);
        if hasInvalidId {
          r, changed := site.(checklist := Some(KeepValidIds(checklist))), true;
        }
      }
    } else {
      RebuildBranch(None);
      r, changed := site.(checklist := Some(InitialChecklist())), true;
    }
  }

  class LocalStorage {
    var stored: Slot

    constructor(initial: Slot)
      ensures stored == initial
    {
      stored := initial;
    }

    /** `saveData`: the entry now holds the data. */
    method SaveData(data: StoredData)
      modifies this
      ensures stored == Holds(data)
    {
      stored := Holds(data);
    }

    /**
     * `loadData`: walks the sites once, repairing each checklist and raising
     * `needsUpdate` when a repair happens, and saves only then.
     */
    method LoadData() returns (data: StoredData)
      modifies this
      ensures data == Loaded(old(stored))
      ensures stored == AfterLoad(old(stored))
    {
      if !stored.Holds? {
        return InitialData;
      }
      data := stored.data;
      if data.sites.None? || |data.sites.value| == 0 {
        assert !SavesOnLoad(stored);
        return data;
      }
      ghost var original := data.sites.value;
      var sites := data.sites.value;
      var needsUpdate := false;
      var i := 0;
      while i < |sites|
        invariant 0 <= i <= |sites| == |original|
        invariant forall j :: 0 <= j < i ==> sites[j] == RepairSite(original[j])
        invariant forall j :: i <= j < |sites| ==> sites[j] == original[j]
        invariant !needsUpdate <==> forall j :: 0 <= j < i ==> !Changes(original[j])
        invariant stored == old(stored)
      {
        var repaired, changed := RepairChecklist(sites[i]);
        sites := sites[i := repaired];
        needsUpdate := needsUpdate || changed;
        i := i + 1;
      }
      data := StoredData(Some(sites));
      assert sites == RepairAll(original);
      assert needsUpdate == SavesOnLoad(old(stored));
      if needsUpdate {
        SaveData(data);
      }
    }

    /** `getSiteData`: the first loaded site with the id, `null`, or a throw when the data has no `sites`. */
    method GetSiteData(siteId: string) returns (r: Outcome<RawSite>)
      modifies this
      ensures stored == AfterLoad(old(stored))
      ensures r == FindRawSite(Loaded(old(stored)), siteId)
    {
      var data := LoadData();
      if data.sites.None? {
        return Threw;
      }
      var k := RawSiteIndex(data.sites.value, siteId);
      if k < |data.sites.value| {
        return Value(data.sites.value[k]);
      }
      return Null;
    }

    /** `updateSiteData`: the first site with the id is merged with `updates` and the data saved. */
    method UpdateSiteData(siteId: string, updates: SitePatch) returns (r: Outcome<RawSite>)
      modifies this
      ensures var d := Loaded(old(stored));
        if d.sites.None? then r == Threw && stored == AfterLoad(old(stored))
        else
          var k := RawSiteIndex(d.sites.value, siteId);
          if k == |d.sites.value| then r == Null && stored == AfterLoad(old(stored))
          else
            r == Value(ApplySitePatch(d.sites.value[k], updates)) &&
            stored == Holds(StoredData(Some(d.sites.value[k := r.value])))
    {
      var data := LoadData();
      if data.sites.None? {
        return Threw;
      }
      var sites := data.sites.value;
      var k := RawSiteIndex(sites, siteId);
      if k < |sites| {
        var updated := ApplySitePatch(sites[k], updates);
        SaveData(StoredData(Some(sites[k := updated])));
        return Value(updated);
      }
      return Null;
    }

    /** `updateTimelineItem`: the first item with `itemId` of the first site with `siteId` is merged with `patch`. */
    method UpdateTimelineItem(siteId: string, itemId: int, patch: TimelinePatch) returns (r: Outcome<TimelineItem>)
      modifies this
      ensures var d := Loaded(old(stored));
        if d.sites.None? then r == Threw && stored == AfterLoad(old(stored))
        else
          var k := RawSiteIndex(d.sites.value, siteId);
          if k == |d.sites.value| then r == Null && stored == AfterLoad(old(stored))
          else
            var site := d.sites.value[k];
            var m := FirstIndex(site.timeline, (x: TimelineItem) => x.id == itemId);
            if m == |site.timeline| then r == Null && stored == AfterLoad(old(stored))
            else
              r == Value(ApplyPatch(site.timeline[m], patch)) &&
              stored == Holds(StoredData(Some(d.sites.value[k := site.(timeline := site.timeline[m := r.value])])))
    {
      var data := LoadData();
      if data.sites.None? {
        return Threw;
      }
      var sites := data.sites.value;
      var k := RawSiteIndex(sites, siteId);
      if k == |sites| {
        return Null;
      }
      var site := sites[k];
      var m := FirstIndex(site.timeline, (x: TimelineItem) => x.id == itemId);
      if m == |site.timeline| {
        return Null;
      }
      var item := ApplyPatch(site.timeline[m], patch);
      SaveData(StoredData(Some(sites[k := site.(timeline := site.timeline[m := item])])));
      return Value(item);
    }

    /**
     * `updateChecklistItem`: sets `checked` of the first item with `itemId`
     * of the first site with `siteId`. A loaded site always has a checklist
     * (`LoadedSitesHaveChecklists`), so `Threw` comes only from missing `sites`.
     */
    method UpdateChecklistItem(siteId: string, itemId: int, checked: bool) returns (r: Outcome<ChecklistItem>)
      modifies this
      ensures var d := Loaded(old(stored));
        if d.sites.None? then r == Threw && stored == AfterLoad(old(stored))
        else
          var k := RawSiteIndex(d.sites.value, siteId);
          if k == |d.sites.value| then r == Null && stored == AfterLoad(old(stored))
          else
            var site := d.sites.value[k];
            site.checklist.Some? &&
            var c := site.checklist.value;
            var m := FirstIndex(c, (x: ChecklistItem) => x.id == itemId);
            if m == |c| then r == Null && stored == AfterLoad(old(stored))
            else
              r == Value(c[m].(checked := checked)) &&
              stored == Holds(StoredData(Some(d.sites.value[k := site.(checklist := Some(c[m := r.value]))])))
    {
      ghost var before := stored;
      var data := LoadData();
      if data.sites.None? {
        return Threw;
      }
      var sites := data.sites.value;
      var k := RawSiteIndex(sites, siteId);
      if k == |sites| {
        return Null;
      }
      LoadedSitesHaveChecklists(before);
      var site := sites[k];
      var c := site.checklist.value;
      var m := FirstIndex(c, (x: ChecklistItem) => x.id == itemId);
      if m == |c| {
        return Null;
      }
      var item := c[m].(checked := checked);
      SaveData(StoredData(Some(sites[k := site.(checklist := Some(c[m := item]))])));
      return Value(item);
    }

    /** `calculateProgress`: zeros for an unknown site, otherwise the team-slot progress of the first match. */
    method CalculateProgress(siteId: string) returns (r: Outcome<LegacyProgress>)
      modifies this
      ensures stored == AfterLoad(old(stored))
      ensures var found := FindRawSite(Loaded(old(stored)), siteId);
        match found
        case Threw => r == Threw
        case Null => r == Value(LegacyZero)
        case Value(site) => site.checklist.Some? && r == Value(TeamProgress(site.timeline, site.checklist.value))
    {
      ghost var before := stored;
      var found := GetSiteData(siteId);
      match found
      case Threw => return Threw;
      case Null => return Value(LegacyZero);
      case Value(site) =>
        LoadedSitesHaveChecklists(before);
        return Value(TeamProgress(site.timeline, site.checklist.value));
    }
  }

  /** `data.sites.find((s) => s.id === id)` on loaded data, with the throw of a missing `sites`. */
  function FindRawSite(d: StoredData, id: string): (r: Outcome<RawSite>)
    ensures r.Threw? <==> d.sites.None?
    ensures r.Value? ==> r.value.id == id && r.value in d.sites.value
    ensures r.Null? ==> forall j :: 0 <= j < |d.sites.value| ==> d.sites.value[j].id != id
  {
    if d.sites.None? then Threw
    else
      var k := RawSiteIndex(d.sites.value, id);
      if k < |d.sites.value| then Value(d.sites.value[k]) else Null
  }

  /** One step of the loop: a site is repaired into something else exactly when it `Changes`. */
  lemma ValidateChangesIffMissing(site: RawSite)
    ensures RepairSite(site) != site <==> Changes(site)
  {
    if site.checklist.Some? {
      ValidateChangesIff(site.checklist.value);
    }
  }

  /** `needsUpdate` is exactly "loading changed the data", so the entry is rewritten only when it differs. */
  lemma SavesOnLoadIffChanged(slot: Slot)
    requires slot.Holds?
    ensures SavesOnLoad(slot) <==> Loaded(slot) != slot.data
  {
    var d := slot.data;
    if d.sites.Some? && |d.sites.value| > 0 {
      var ss := d.sites.value;
      if SavesOnLoad(slot) {
        var i :| 0 <= i < |ss| && Changes(ss[i]);
        ValidateChangesIffMissing(ss[i]);
        assert RepairAll(ss)[i] != ss[i];
      } else {
        forall i | 0 <= i < |ss|
          ensures RepairAll(ss)[i] == ss[i]
        {
          ValidateChangesIffMissing(ss[i]);
        }
        assert RepairAll(ss) == ss;
      }
    }
  }

  /** An absent, empty or unreadable entry loads as the initial data and is not written. */
  lemma VacantLoadsInitial(slot: Slot)
    requires !slot.Holds?
    ensures Loaded(slot) == InitialData && AfterLoad(slot) == slot
  {
  }

  /** A document without sites, or with an empty list, is returned as it is and not written. */
  lemma NoSitesUntouched(d: StoredData)
    requires d.sites.None? || d.sites.value == []
    ensures Loaded(Holds(d)) == d && AfterLoad(Holds(d)) == Holds(d)
  {
  }

  /** After loading, every site has a checklist and no checklist holds an id outside 1..19. */
  lemma LoadedSitesHaveChecklists(slot: Slot)
    ensures var d := Loaded(slot);
      d.sites.Some? ==>
        forall i :: 0 <= i < |d.sites.value| ==> (d.sites.value[i].checklist.Some? &&
          forall j :: 0 <= j < |d.sites.value[i].checklist.value| ==> ValidId(d.sites.value[i].checklist.value[j].id))
  {
    var d := Loaded(slot);
    if slot.Holds? && slot.data.sites.Some? && |slot.data.sites.value| > 0 {
      forall i | 0 <= i < |d.sites.value|
        ensures d.sites.value[i].checklist.Some? &&
          forall j :: 0 <= j < |d.sites.value[i].checklist.value| ==> ValidId(d.sites.value[i].checklist.value[j].id)
      {
        ValidateSettles(slot.data.sites.value[i].checklist);
      }
    } else if !slot.Holds? {
      assert d.sites.value == [RawSite("anyang-bakdal", "안양 박달 사업소", LegacyTimeline(), Some(InitialChecklist()))];
    }
  }

  /**
   * Loading settles: the third load of an entry neither changes the data
   * nor writes it, although the second may (a 19-item checklist with a
   * foreign id is first filtered, then rebuilt).
   */
  lemma LoadSettles(slot: Slot)
    ensures AfterLoad(AfterLoad(AfterLoad(slot))) == AfterLoad(AfterLoad(slot))
    ensures Loaded(AfterLoad(AfterLoad(slot))) == Loaded(AfterLoad(slot))
  {
    if slot.Holds? && slot.data.sites.Some? && |slot.data.sites.value| > 0 {
      var ss := slot.data.sites.value;
      var s1 := Holds(StoredData(Some(RepairAll(ss))));
      var s2 := Holds(StoredData(Some(RepairAll(RepairAll(ss)))));
      AfterLoadOfSites(slot);
      AfterLoadOfSites(s1);
      AfterLoadOfSites(s2);
      RepairSettles(ss);
    }
  }

  /** With sites to walk, the entry after loading holds exactly the loaded data. */
  lemma AfterLoadOfSites(slot: Slot)
    requires slot.Holds? && slot.data.sites.Some? && |slot.data.sites.value| > 0
    ensures AfterLoad(slot) == Holds(Loaded(slot))
  {
    SavesOnLoadIffChanged(slot);
  }

  /**
   * The repair walk keeps every site's id, name and timeline and gives it a
   * checklist; a second walk may still change it, a third never does.
   */
  lemma RepairSettles(sites: seq<RawSite>)
    ensures |RepairAll(sites)| == |sites|
    ensures forall i :: 0 <= i < |sites| ==>
      var r := RepairAll(sites)[i];
      r.id == sites[i].id && r.name == sites[i].name && r.timeline == sites[i].timeline && r.checklist.Some?
    ensures RepairAll(RepairAll(RepairAll(sites))) == RepairAll(RepairAll(sites))
  {
    forall i | 0 <= i < |sites|
      ensures RepairAll(RepairAll(RepairAll(sites)))[i] == RepairAll(RepairAll(sites))[i]
    {
      ValidateSettles(sites[i].checklist);
    }
  }

  /** The team percentage is 100 for a non-empty timeline on which both teams completed every item. */
  lemma {:induction false} AllTeamsDoneCount(t: seq<TimelineItem>)
    ensures TeamsCompleted(t) == 2 * |t| <==> forall i :: 0 <= i < |t| ==> BothDone(t[i])
  {
    if t != [] {
      AllTeamsDoneCount(t[1..]);
      assert forall i :: 1 <= i < |t| ==> t[i] == t[1..][i - 1];
    }
  }

  /**
   * On a timeline of fewer than 100 items the team percentage reads 100
   * exactly when both teams completed every item (over 2 * |t| slots, one
   * missing slot rounds away from 100 items on).
   */
  lemma TeamTimelineFullIff(t: seq<TimelineItem>, c: seq<ChecklistItem>)
    requires 0 < |t| < 100
    ensures TeamProgress(t, c).timeline == Some(100) <==> forall i :: 0 <= i < |t| ==> BothDone(t[i])
  {
    AllTeamsDoneCount(t);
    PercentFullIff(TeamsCompleted(t), 2 * |t|);
    assert TeamProgress(t, c).timeline == Percent(TeamsCompleted(t), 2 * |t|);
  }

  /** The points of the items of the seed timeline, by index: items 1-10, 13, 14, 16 and 17 score 2, items 11 and 12 score 1. */
  function LegacySeedPoints(i: int): nat {
    if i < 10 then 2 else if i < 12 then 1 else if i < 14 then 2 else if i == 14 then 0 else if i < 17 then 2 else 0
  }

  /** The seed timeline item by item: what each team has completed. */
  lemma LegacyTimelinePoints()
    ensures |LegacyTimeline()| == 20
    ensures forall i :: 0 <= i < 20 ==> TeamPoints(LegacyTimeline()[i]) == LegacySeedPoints(i)
  {
  }

  /** Any 20-item timeline scoring like the seed has, from index `k` on, the points the closed form gives. */
  lemma {:induction false} SeedShapedTeams(t: seq<TimelineItem>, k: nat)
    requires |t| == 20 && k <= 20
    requires forall i :: 0 <= i < 20 ==> TeamPoints(t[i]) == LegacySeedPoints(i)
    ensures TeamsCompleted(t[k..]) ==
      if k >= 17 then 0 else if k >= 15 then 2 * (17 - k) else if k == 14 then 4
      else if k >= 12 then 4 + 2 * (14 - k) else if k >= 10 then 8 + (12 - k) else 10 + 2 * (10 - k)
    decreases 20 - k
  {
    if k < 20 {
      SeedShapedTeams(t, k + 1);
      assert t[k..][1..] == t[k + 1..];
    }
  }

  /** The seed timeline of this module: 30 of its 40 team slots are completed. */
  lemma LegacyTimelineTeams()
    ensures TeamsCompleted(LegacyTimeline()) == 30
  {
    LegacyTimelinePoints();
    SeedShapedTeams(LegacyTimeline(), 0);
    assert LegacyTimeline()[0..] == LegacyTimeline();
  }

  /** Any site with 30 of 40 team slots and 17 of 19 checks shows 75% timeline, 89% checklist and 79% overall. */
  lemma ThirtyOfFortyProgress(t: seq<TimelineItem>, c: seq<ChecklistItem>)
    requires |t| == 20 && TeamsCompleted(t) == 30 && |c| == 19 && CountChecked(c) == 17
    ensures TeamProgress(t, c) == LegacyProgress(Some(75), Some(89), Some(79))
  {
    assert Round(100 * 30, 40) == 75;
    assert Round(100 * 17, 19) == 89;
    assert Round(70 * (30 * 19) + 30 * (17 * 40), 40 * 19) == 79;
  }

  /** The seed site of this module is such a site. */
  lemma LegacySeedProgress()
    ensures TeamProgress(LegacyTimeline(), InitialChecklist()) == LegacyProgress(Some(75), Some(89), Some(79))
  {
    LegacyTimelineTeams();
    InitialChecklistCount();
    ThirtyOfFortyProgress(LegacyTimeline(), InitialChecklist());
  }
}
