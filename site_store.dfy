/**
 * The zustand store of src/lib/store.js: the list of sites, a loading flag
 * and an error message, with the actions that load sites from the server
 * (falling back to the seed data and the cache), update one timeline or
 * checklist item optimistically, and read a site or its progress back.
 *
 * The server is not modelled: each loading action receives the outcome of
 * its request (a payload or the message of the error it threw) as a
 * parameter. The follow-up PATCH of the update actions swallows its own
 * failures and changes nothing here, so it is left out.
 */
module SiteStore {
  import opened Wrappers
  import opened Domain
  import opened Seed
  import opened Lists
  import opened Checklist
  import opened Progress
  import opened Grouping

  /** The body of `GET /sites`, as far as `loadAllSites` tells shapes apart. */
  datatype SitesPayload =
    | Envelope(sites: seq<RawSite>)   // `{ sites: [...] }`
    | Bare(list: seq<RawSite>)        // `[...]`
    | OtherShape                      // anything else, `null` included

  /** The body of `GET /sites/:id`. */
  datatype SitePayload =
    | Direct(site: RawSite)           // a site object itself, recognised by a truthy `id`
    | Wrapped(inner: RawSite)         // `{ site: {...} }` without an `id` of its own
    | Malformed                       // anything else, `null` included

  /** What a request gave back: a body, or the message of the error it threw. */
  datatype Fetch<+P> = Received(body: P) | Failed(message: string)

  /** What `loadSite` resolves to, or the message it rejects with. */
  datatype Loaded = Returned(site: Site) | Thrown(message: string)

  const InvalidFormat := "Invalid API response format"

  /** `{ ...site, checklist: validateAndUpdateChecklist(site.checklist) }`. */
  function Reconcile(raw: RawSite): (s: Site)
    ensures s.id == raw.id && s.name == raw.name && s.timeline == raw.timeline
    ensures s.checklist == Validate(raw.checklist)
  {
    Site(raw.id, raw.name, raw.timeline, Validate(raw.checklist))
  }

  function ReconcileAll(raws: seq<RawSite>): (r: seq<Site>)
    ensures |r| == |raws|
    ensures forall i :: 0 <= i < |r| ==> r[i] == Reconcile(raws[i])
  {
    seq(|raws|, i requires 0 <= i < |raws| => Reconcile(raws[i]))
  }

  /** The index of the first site with id `id`, or `|sites|`. */
  function SiteIndex(sites: seq<Site>, id: string): (k: nat)
    ensures k <= |sites|
    ensures k < |sites| <==> HasSiteId(sites, id)
    ensures k < |sites| ==> sites[k].id == id
    ensures forall j :: 0 <= j < k ==> sites[j].id != id
  {
    FirstIndex(sites, (s: Site) => s.id == id)
  }

  /** `sites.find((s) => s.id === id)`. */
  function FindSite(sites: seq<Site>, id: string): (r: Option<Site>)
    ensures r.Some? <==> HasSiteId(sites, id)
    ensures r.Some? ==> r.value.id == id && r.value == sites[SiteIndex(sites, id)]
  {
    var k := SiteIndex(sites, id);
    if k < |sites| then Some(sites[k]) else None
  }

  /** `candidates.filter((s) => !ids(present).has(s.id))`, in the order of `candidates`. */
  function Missing(candidates: seq<Site>, present: seq<Site>): (r: seq<Site>)
    ensures |r| <= |candidates|
    ensures forall x :: x in r <==> x in candidates && !HasSiteId(present, x.id)
  {
    if candidates == [] then []
    else
      assert forall x :: x in candidates <==> x == candidates[0] || x in candidates[1..];
      (if HasSiteId(present, candidates[0].id) then [] else [candidates[0]]) + Missing(candidates[1..], present)
  }

  /** Whether a site's id is among the present ones: the key `Missing` filters on. */
  function PresentKey(present: seq<Site>): Site -> bool {
    (s: Site) => HasSiteId(present, s.id)
  }

  /** `Missing` is the filter on `PresentKey` keeping the sites whose key is false. */
  lemma {:induction false} MissingIsWhere(candidates: seq<Site>, present: seq<Site>)
    ensures Missing(candidates, present) == Where(candidates, PresentKey(present), false)
  {
    if candidates != [] {
      MissingIsWhere(candidates[1..], present);
    }
  }

  /** `filter` keeps the candidates' order: filtering a concatenation filters each part in turn. */
  lemma MissingConcat(a: seq<Site>, b: seq<Site>, present: seq<Site>)
    ensures Missing(a + b, present) == Missing(a, present) + Missing(b, present)
  {
    MissingIsWhere(a + b, present);
    MissingIsWhere(a, present);
    MissingIsWhere(b, present);
    WhereConcat(a, b, PresentKey(present), false);
  }

  /** A single candidate is kept exactly when no present site has its id. */
  lemma MissingSingle(x: Site, present: seq<Site>)
    ensures Missing([x], present) == if HasSiteId(present, x.id) then [] else [x]
  {
    assert [x][1..] == [];
  }

  /** A candidate whose id is not present is kept as often as it occurs, and any other is dropped. */
  lemma MissingCount(candidates: seq<Site>, present: seq<Site>, x: Site)
    ensures multiset(Missing(candidates, present))[x] == if HasSiteId(present, x.id) then 0 else multiset(candidates)[x]
  {
    MissingIsWhere(candidates, present);
    WhereCount(candidates, PresentKey(present), false, x);
  }

  /** `[...sites, ...missingInitialSites]`: the seed sites the list lacks are appended. */
  function TopUp(sites: seq<Site>): (r: seq<Site>)
    ensures |r| >= |sites| && r[..|sites|] == sites
    ensures r[|sites|..] == Missing(InitialSites(), sites)
  {
    sites + Missing(InitialSites(), sites)
  }

  /** The sites array `loadAllSites` accepts: `data.sites` when it is an array, else `data` when it is one. */
  function AcceptedSites(p: SitesPayload): (r: Result<seq<RawSite>>)
    ensures r.Ok? <==> !p.OtherShape?
    ensures r.Err? ==> r.message == InvalidFormat
  {
    match p
    case Envelope(s) => Ok(s)
    case Bare(s) => Ok(s)
    case OtherShape => Err(InvalidFormat)
  }

  /** The failure branch: with a non-empty cache, the seed sites first and then the cached sites the seed lacks. */
  function Fallback(cached: seq<Site>): (r: seq<Site>)
    ensures |r| >= |InitialSites()| && r[..|InitialSites()|] == InitialSites()
  {
    if |cached| > 0 then InitialSites() + Missing(cached, InitialSites()) else InitialSites()
  }

  /** The sites `loadAllSites` leaves in the store (and returns). */
  function AfterLoadAll(cached: seq<Site>, outcome: Fetch<SitesPayload>): seq<Site> {
    if outcome.Received? && AcceptedSites(outcome.body).Ok? then
      TopUp(ReconcileAll(AcceptedSites(outcome.body).value))
    else
      Fallback(cached)
  }

  /** The site object `loadSite` accepts: `siteData` when its `id` is truthy, else `siteData.site`. */
  function AcceptedSite(p: SitePayload): (r: Result<RawSite>)
    ensures r.Ok? <==> (p.Direct? && p.site.id != "") || p.Wrapped?
    ensures r.Err? ==> r.message == InvalidFormat
  {
    match p
    case Direct(s) => if s.id != "" then Ok(s) else Err(InvalidFormat)
    case Wrapped(s) => Ok(s)
    case Malformed => Err(InvalidFormat)
  }

  /** The error `loadSite` catches, if any: the request's own or the format error. */
  function LoadSiteError(outcome: Fetch<SitePayload>): Option<string> {
    match outcome
    case Failed(m) => Some(m)
    case Received(p) => if AcceptedSite(p).Err? then Some(AcceptedSite(p).message) else None
  }

  /** Replace the first site with id `id` by `site`, or append `site` when there is none. */
  function Upsert(sites: seq<Site>, id: string, site: Site): (r: seq<Site>)
    ensures |r| == if HasSiteId(sites, id) then |sites| else |sites| + 1
    ensures r[SiteIndex(sites, id)] == site
    ensures forall j :: 0 <= j < |sites| && j != SiteIndex(sites, id) ==> r[j] == sites[j]
  {
    var k := SiteIndex(sites, id);
    if k < |sites| then sites[k := site] else sites + [site]
  }

  /** `sites.map((s) => (s.id === id ? updated : s))`: every site with that id becomes `updated`. */
  function ReplaceAll(sites: seq<Site>, id: string, updated: Site): (r: seq<Site>)
    ensures |r| == |sites|
    ensures forall j :: 0 <= j < |sites| ==> r[j] == if sites[j].id == id then updated else sites[j]
  {
    seq(|sites|, j requires 0 <= j < |sites| => if sites[j].id == id then updated else sites[j])
  }

  function TimelineIndex(t: seq<TimelineItem>, itemId: int): (k: nat)
    ensures k <= |t|
    ensures k < |t| ==> t[k].id == itemId
    ensures forall j :: 0 <= j < k ==> t[j].id != itemId
  {
    FirstIndex(t, (x: TimelineItem) => x.id == itemId)
  }

  function ChecklistIndex(c: seq<ChecklistItem>, itemId: int): (k: nat)
    ensures k <= |c|
    ensures k < |c| ==> c[k].id == itemId
    ensures forall j :: 0 <= j < k ==> c[j].id != itemId
  {
    FirstIndex(c, (x: ChecklistItem) => x.id == itemId)
  }

  class SiteStore {
    var sites: seq<Site>
    var loading: bool
    var error: Option<string>

    /** The initial state: the seed sites, not loading, no error. */
    constructor()
      ensures sites == InitialSites() && !loading && error == None
    {
      sites := InitialSites();
      loading := false;
      error := None;
    }

    /** `loadAllSites`: the new list of sites is returned as well as stored; no error is ever kept. */
    method LoadAllSites(outcome: Fetch<SitesPayload>) returns (result: seq<Site>)
      modifies this
      ensures sites == AfterLoadAll(old(sites), outcome) && result == sites
      ensures !loading && error == None
    {
      loading, error := true, None;
      ghost var expected := AfterLoadAll(sites, outcome);
      var accepted := if outcome.Received? then AcceptedSites(outcome.body) else Err(outcome.message);
      if accepted.Ok? {
        var reconciled := ReconcileAll(accepted.value);
        var merged := reconciled + Missing(InitialSites(), reconciled);
        assert merged == TopUp(reconciled) == expected;
        sites, loading := merged, false;
        return merged;
      }
      var cached := sites;
      assert expected == Fallback(cached);
      if |cached| > 0 {
        var merged := InitialSites() + Missing(cached, InitialSites());
        sites, loading, error := merged, false, None;
        return merged;
      }
      sites, loading, error := InitialSites(), false, None;
      return InitialSites();
    }

    /**
     * `loadSite`: an accepted site is reconciled and stored in place of the
     * first site with the requested id, or appended. On any error the cached
     * site is returned if there is one; otherwise the error is recorded and
     * rethrown.
     */
    method LoadSite(siteId: string, outcome: Fetch<SitePayload>) returns (r: Loaded)
      modifies this
      ensures !loading
      ensures LoadSiteError(outcome).None? ==>
        var site := Reconcile(AcceptedSite(outcome.body).value);
        r == Returned(site) && sites == Upsert(old(sites), siteId, site) && error == None
      ensures LoadSiteError(outcome).Some? ==> sites == old(sites)
      ensures LoadSiteError(outcome).Some? && HasSiteId(old(sites), siteId) ==>
        r == Returned(FindSite(old(sites), siteId).value) && error == None
      ensures LoadSiteError(outcome).Some? && !HasSiteId(old(sites), siteId) ==>
        r == Thrown(LoadSiteError(outcome).value) && error == LoadSiteError(outcome)
    {
      loading, error := true, None;
      var accepted := if outcome.Received? then AcceptedSite(outcome.body) else Err(outcome.message);
      if accepted.Ok? {
        var site := Reconcile(accepted.value);
        var k := SiteIndex(sites, siteId);
        if k < |sites| {
          sites := sites[k := site];
        } else {
          sites := sites + [site];
        }
        loading := false;
        return Returned(site);
      }
      var cachedSite := FindSite(sites, siteId);
      if cachedSite.Some? {
        loading, error := false, None;
        return Returned(cachedSite.value);
      }
      loading, error := false, Some(accepted.message);
      return Thrown(accepted.message);
    }

    /**
     * `updateTimelineItem`: the first item with `itemId` of the first site
     * with `siteId` is merged with `patch`, and every site with that id is
     * replaced by the updated copy. Returns the merged item, or `None` when
     * the site or the item is unknown (and then nothing changes).
     */
    method UpdateTimelineItem(siteId: string, itemId: int, patch: TimelinePatch) returns (r: Option<TimelineItem>)
      modifies this
      ensures loading == old(loading) && error == old(error)
      ensures !HasSiteId(old(sites), siteId) ==> r == None && sites == old(sites)
      ensures HasSiteId(old(sites), siteId) ==>
        var site := FindSite(old(sites), siteId).value;
        var k := TimelineIndex(site.timeline, itemId);
        if k == |site.timeline| then r == None && sites == old(sites)
        else
          r == Some(ApplyPatch(site.timeline[k], patch)) &&
          sites == ReplaceAll(old(sites), siteId, site.(timeline := site.timeline[k := r.value]))
    {
      var found := FindSite(sites, siteId);
      if found.None? {
        return None;
      }
      var site := found.value;
      var k := TimelineIndex(site.timeline, itemId);
      if k == |site.timeline| {
        return None;
      }
      var item := ApplyPatch(site.timeline[k], patch);
      var updatedSite := site.(timeline := site.timeline[k := item]);
      sites := ReplaceAll(sites, siteId, updatedSite);
      return Some(item);
    }

    /** `updateChecklistItem`: as `UpdateTimelineItem`, setting `checked` of the first checklist item with `itemId`. */
    method UpdateChecklistItem(siteId: string, itemId: int, checked: bool) returns (r: Option<ChecklistItem>)
      modifies this
      ensures loading == old(loading) && error == old(error)
      ensures !HasSiteId(old(sites), siteId) ==> r == None && sites == old(sites)
      ensures HasSiteId(old(sites), siteId) ==>
        var site := FindSite(old(sites), siteId).value;
        var k := ChecklistIndex(site.checklist, itemId);
        if k == |site.checklist| then r == None && sites == old(sites)
        else
          r == Some(site.checklist[k].(checked := checked)) &&
          sites == ReplaceAll(old(sites), siteId, site.(checklist := site.checklist[k := r.value]))
    {
      var found := FindSite(sites, siteId);
      if found.None? {
        return None;
      }
      var site := found.value;
      var k := ChecklistIndex(site.checklist, itemId);
      if k == |site.checklist| {
        return None;
      }
      var item := site.checklist[k].(checked := checked);
      var updatedSite := site.(checklist := site.checklist[k := item]);
      sites := ReplaceAll(sites, siteId, updatedSite);
      return Some(item);
    }

    /** `getSite`: the first site with the id, or `null`. */
    function GetSite(siteId: string): (r: Option<Site>)
      reads this
      ensures r.Some? <==> HasSiteId(sites, siteId)
      ensures r.Some? ==> r.value.id == siteId && r.value in sites
      ensures r.Some? ==> forall j :: 0 <= j < |sites| && sites[j].id == siteId ==> r.value == sites[SiteIndex(sites, siteId)]
    {
      FindSite(sites, siteId)
    }

    /** `calculateProgress`: the zero result for an unknown id, otherwise the progress of the first site with it. */
    function CalculateProgress(siteId: string): (p: ProgressResult)
      reads this
      ensures !HasSiteId(sites, siteId) ==> p == Zero
      ensures HasSiteId(sites, siteId) ==> p.total == Some(|FindSite(sites, siteId).value.timeline|)
      ensures HasSiteId(sites, siteId) ==> p == SiteProgress(FindSite(sites, siteId).value)
    {
      match FindSite(sites, siteId)
      case None => Zero
      case Some(site) => SiteProgress(site)
    }

    /**
     * `onRehydrateStorage`: once the persisted sites (if any) have replaced
     * the current ones, the seed sites they lack are appended.
     */
    method Rehydrate(persisted: Option<seq<Site>>)
      modifies this
      ensures sites == TopUp(persisted.GetOr(old(sites)))
      ensures loading == old(loading) && error == old(error)
    {
      var state := persisted.GetOr(sites);
      var missing := Missing(InitialSites(), state);
      if |missing| > 0 {
        state := state + missing;
      }
      sites := state;
    }
  }

  /** After any `loadAllSites`, every seed site id is in the store. */
  lemma LoadAllKeepsSeeds(cached: seq<Site>, outcome: Fetch<SitesPayload>)
    ensures forall i :: 0 <= i < |InitialSites()| ==> HasSiteId(AfterLoadAll(cached, outcome), InitialSites()[i].id)
  {
    var r := AfterLoadAll(cached, outcome);
    if outcome.Received? && AcceptedSites(outcome.body).Ok? {
      TopUpHasSeeds(ReconcileAll(AcceptedSites(outcome.body).value));
    } else {
      var seed := InitialSites();
      assert r[..|seed|] == seed;
      forall i | 0 <= i < |seed|
        ensures HasSiteId(r, seed[i].id)
      {
        assert r[i] == seed[i];
      }
    }
  }

  /** Topping up puts every seed id in the list. */
  lemma TopUpHasSeeds(sites: seq<Site>)
    ensures forall i :: 0 <= i < |InitialSites()| ==> HasSiteId(TopUp(sites), InitialSites()[i].id)
  {
    var seed, r := InitialSites(), TopUp(sites);
    forall i | 0 <= i < |seed|
      ensures HasSiteId(r, seed[i].id)
    {
      if HasSiteId(sites, seed[i].id) {
        var j :| 0 <= j < |sites| && sites[j].id == seed[i].id;
        assert r[j] == sites[j];
      } else {
        assert seed[i] in Missing(seed, sites);
        var j :| 0 <= j < |Missing(seed, sites)| && Missing(seed, sites)[j] == seed[i];
        assert r[|sites| + j] == seed[i];
      }
    }
  }

  /**
   * The top-up appends, in seed order, exactly the seed sites whose id the
   * list lacks, each of them once.
   */
  lemma TopUpAppendsMissingOnce(sites: seq<Site>)
    ensures var seed, tail := InitialSites(), TopUp(sites)[|sites|..];
      && tail == Missing(seed, sites)
      && forall i :: 0 <= i < |seed| ==>
           multiset(tail)[seed[i]] == (if HasSiteId(sites, seed[i].id) then 0 else 1)
  {
    SeedSiteIdsDistinct();
    MissingOnce(InitialSites(), sites);
  }

  /** Candidates with distinct ids are each kept once when their id is missing, and not at all otherwise. */
  lemma MissingOnce(candidates: seq<Site>, present: seq<Site>)
    requires forall a, b :: 0 <= a < b < |candidates| ==> candidates[a].id != candidates[b].id
    ensures forall i :: 0 <= i < |candidates| ==>
              multiset(Missing(candidates, present))[candidates[i]] == (if HasSiteId(present, candidates[i].id) then 0 else 1)
  {
    forall i | 0 <= i < |candidates|
      ensures multiset(Missing(candidates, present))[candidates[i]] == (if HasSiteId(present, candidates[i].id) then 0 else 1)
    {
      MissingCount(candidates, present, candidates[i]);
      UniqueCountOne(candidates, i);
    }
  }

  /** A list that already holds every seed id is left as it is, so topping up twice is topping up once. */
  lemma TopUpIdempotent(sites: seq<Site>)
    ensures (forall i :: 0 <= i < |InitialSites()| ==> HasSiteId(sites, InitialSites()[i].id)) ==> TopUp(sites) == sites
    ensures TopUp(TopUp(sites)) == TopUp(sites)
  {
    var seed := InitialSites();
    if forall i :: 0 <= i < |seed| ==> HasSiteId(sites, seed[i].id) {
      NothingMissing(seed, sites);
    }
    TopUpHasSeeds(sites);
    NothingMissing(seed, TopUp(sites));
  }

  lemma {:induction false} NothingMissing(candidates: seq<Site>, present: seq<Site>)
    requires forall i :: 0 <= i < |candidates| ==> HasSiteId(present, candidates[i].id)
    ensures Missing(candidates, present) == []
  {
    if candidates != [] {
      assert HasSiteId(present, candidates[0].id);
      NothingMissing(candidates[1..], present);
    }
  }

  /**
   * On a failed load with a non-empty cache the seed wins: the seed sites
   * come first, every cached site whose id is not a seed id is kept, and no
   * later site repeats a seed id.
   */
  lemma FallbackSeedWins(cached: seq<Site>)
    requires |cached| > 0
    ensures var r := Fallback(cached);
      r[..|InitialSites()|] == InitialSites() &&
      r[|InitialSites()|..] == Missing(cached, InitialSites()) &&
      (forall s :: s in cached && !HasSiteId(InitialSites(), s.id) ==> s in r) &&
      (forall j :: |InitialSites()| <= j < |r| ==> !HasSiteId(InitialSites(), r[j].id))
    ensures forall x ::
              multiset(Fallback(cached)[|InitialSites()|..])[x] == (if HasSiteId(InitialSites(), x.id) then 0 else multiset(cached)[x])
  {
    var seed, r := InitialSites(), Fallback(cached);
    assert r == seed + Missing(cached, seed);
    assert r[|seed|..] == Missing(cached, seed);
    forall x
      ensures multiset(r[|seed|..])[x] == if HasSiteId(seed, x.id) then 0 else multiset(cached)[x]
    {
      MissingCount(cached, seed, x);
    }
    forall j | |seed| <= j < |r|
      ensures !HasSiteId(seed, r[j].id)
    {
      assert r[j] in Missing(cached, seed);
    }
  }

  /** With an empty cache a failed load yields exactly the seed. */
  lemma FallbackEmptyCacheIsSeed()
    ensures Fallback([]) == InitialSites()
  {
  }

  /** An accepted payload keeps the server's sites, reconciled and in order, ahead of the appended seed sites. */
  lemma LoadAllSuccessKeepsServerOrder(cached: seq<Site>, raws: seq<RawSite>)
    ensures var r := AfterLoadAll(cached, Received(Bare(raws)));
      && |r| >= |raws|
      && (forall i :: 0 <= i < |raws| ==>
            r[i].id == raws[i].id && r[i].name == raws[i].name && r[i].timeline == raws[i].timeline
            && r[i].checklist == Validate(raws[i].checklist))
      && r[|raws|..] == Missing(InitialSites(), r[..|raws|])
    ensures AfterLoadAll(cached, Received(Envelope(raws))) == AfterLoadAll(cached, Received(Bare(raws)))
  {
    var r := AfterLoadAll(cached, Received(Bare(raws)));
    assert r[..|raws|] == ReconcileAll(raws);
    forall i | 0 <= i < |raws|
      ensures r[i] == Reconcile(raws[i])
    {
      assert r[i] == r[..|raws|][i];
    }
  }

  /** A payload of any other shape is a failed load: the cache and the seed decide. */
  lemma LoadAllBadShapeFallsBack(cached: seq<Site>)
    ensures AfterLoadAll(cached, Received(OtherShape)) == Fallback(cached)
    ensures forall m :: AfterLoadAll(cached, Failed(m)) == Fallback(cached)
  {
  }

  /** After storing a site under its own id, looking that id up finds it. */
  lemma UpsertThenFind(sites: seq<Site>, site: Site)
    ensures FindSite(Upsert(sites, site.id, site), site.id) == Some(site)
    ensures |sites| <= |Upsert(sites, site.id, site)| <= |sites| + 1
  {
    var r := Upsert(sites, site.id, site);
    var k := SiteIndex(sites, site.id);
    assert r[k] == site;
    assert HasSiteId(r, site.id);
    var k' := SiteIndex(r, site.id);
  }

  /** Storing the same site under the same id twice is storing it once. */
  lemma UpsertIdempotent(sites: seq<Site>, site: Site)
    ensures Upsert(Upsert(sites, site.id, site), site.id, site) == Upsert(sites, site.id, site)
  {
    var r := Upsert(sites, site.id, site);
    var k := SiteIndex(sites, site.id);
    var k' := SiteIndex(r, site.id);
    assert k' <= k;
    assert k' == k;
  }

  /**
   * The optimistic update is visible at once: when `updated` keeps the id,
   * looking the id up afterwards gives `updated`, and every site with
   * another id is untouched.
   */
  lemma ReplaceAllThenFind(sites: seq<Site>, id: string, updated: Site)
    requires HasSiteId(sites, id) && updated.id == id
    ensures FindSite(ReplaceAll(sites, id, updated), id) == Some(updated)
    ensures |ReplaceAll(sites, id, updated)| == |sites|
    ensures forall j :: 0 <= j < |sites| && sites[j].id == id ==> ReplaceAll(sites, id, updated)[j] == updated
    ensures forall j :: 0 <= j < |sites| && sites[j].id != id ==> ReplaceAll(sites, id, updated)[j] == sites[j]
  {
    var r := ReplaceAll(sites, id, updated);
    var k := SiteIndex(sites, id);
    assert r[k] == updated;
    var k' := SiteIndex(r, id);
  }

  /** A timeline update that succeeded can be read back: the site now holds the returned item at its index. */
  lemma TimelineUpdateReadBack(sites: seq<Site>, siteId: string, itemId: int, patch: TimelinePatch)
    requires HasSiteId(sites, siteId)
    requires TimelineIndex(FindSite(sites, siteId).value.timeline, itemId) < |FindSite(sites, siteId).value.timeline|
    ensures var site := FindSite(sites, siteId).value;
      var k := TimelineIndex(site.timeline, itemId);
      var item := ApplyPatch(site.timeline[k], patch);
      var after := FindSite(ReplaceAll(sites, siteId, site.(timeline := site.timeline[k := item])), siteId).value;
      |after.timeline| == |site.timeline| && after.timeline[k] == item &&
      (forall j :: 0 <= j < |site.timeline| && j != k ==> after.timeline[j] == site.timeline[j]) &&
      after.checklist == site.checklist
  {
    var site := FindSite(sites, siteId).value;
    var k := TimelineIndex(site.timeline, itemId);
    var item := ApplyPatch(site.timeline[k], patch);
    ReplaceAllThenFind(sites, siteId, site.(timeline := site.timeline[k := item]));
  }

  /** A checklist update that succeeded can be read back, and the site's progress counts the new value. */
  lemma ChecklistUpdateReadBack(sites: seq<Site>, siteId: string, itemId: int, checked: bool)
    requires HasSiteId(sites, siteId)
    requires ChecklistIndex(FindSite(sites, siteId).value.checklist, itemId) < |FindSite(sites, siteId).value.checklist|
    ensures var site := FindSite(sites, siteId).value;
      var k := ChecklistIndex(site.checklist, itemId);
      var item := site.checklist[k].(checked := checked);
      var after := FindSite(ReplaceAll(sites, siteId, site.(checklist := site.checklist[k := item])), siteId).value;
      |after.checklist| == |site.checklist| && after.checklist[k].checked == checked &&
      after.checklist[k].id == itemId && after.checklist[k].text == site.checklist[k].text &&
      (forall j :: 0 <= j < |site.checklist| && j != k ==> after.checklist[j] == site.checklist[j]) &&
      after.timeline == site.timeline &&
      CountChecked(after.checklist) + (if site.checklist[k].checked then 1 else 0)
        == CountChecked(site.checklist) + (if checked then 1 else 0)
  {
    var site := FindSite(sites, siteId).value;
    var k := ChecklistIndex(site.checklist, itemId);
    var item := site.checklist[k].(checked := checked);
    ReplaceAllThenFind(sites, siteId, site.(checklist := site.checklist[k := item]));
    CountCheckedUpdate(site.checklist, k, checked);
  }

  /** When two sites share the requested id, both become the copy of the first one. */
  lemma ReplaceAllOverwritesDuplicates()
    ensures var a := Site("x", "A", [], []);
      var b := Site("x", "B", [], []);
      var updated := a.(name := "A2");
      ReplaceAll([a, b], "x", updated) == [updated, updated]
  {
  }
}
