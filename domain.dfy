/**
 * The records the site-tracking code passes around: checklist items,
 * timeline items, sites, and the partial updates merged into a timeline item
 * with JavaScript's object spread.
 */
module Domain {
  import opened Wrappers

  /** One yes/no verification question of a site's checklist. */
  datatype ChecklistItem = ChecklistItem(id: int, text: string, checked: bool)

  /**
   * One task of a site's timeline. The record holds every key the code
   * reads: the store's `status`/`role`, the older `rnd`/`field` per-team
   * statuses, and the `subSection`/`title` spellings the export accepts.
   * `None` is a key that is absent or `null`.
   */
  datatype TimelineItem = TimelineItem(
    id: int,
    step: string,
    task: Option<string>,
    title: Option<string>,
    section: string,
    subsection: Option<string>,
    subSection: Option<string>,
    status: Option<string>,
    role: Option<string>,
    rnd: Option<string>,
    field: Option<string>,
    startDate: Option<string>,
    completionDate: Option<string>,
    completedAt: Option<string>,
    completedBy: Option<string>)

  /** A key of an update object: absent (`Keep`) or present with a value. */
  datatype Update<T> = Keep | Put(value: T)

  function Over<T>(u: Update<T>, old_: T): T {
    match u
    case Keep => old_
    case Put(v) => v
  }

  /** The `updates` object of a timeline-item update: one optional key per field. */
  datatype TimelinePatch = TimelinePatch(
    id: Update<int>,
    step: Update<string>,
    task: Update<Option<string>>,
    title: Update<Option<string>>,
    section: Update<string>,
    subsection: Update<Option<string>>,
    subSection: Update<Option<string>>,
    status: Update<Option<string>>,
    role: Update<Option<string>>,
    rnd: Update<Option<string>>,
    field: Update<Option<string>>,
    startDate: Update<Option<string>>,
    completionDate: Update<Option<string>>,
    completedAt: Update<Option<string>>,
    completedBy: Update<Option<string>>)

  const NoChange := TimelinePatch(Keep, Keep, Keep, Keep, Keep, Keep, Keep, Keep, Keep, Keep, Keep, Keep, Keep, Keep, Keep)

  /** `{ ...item, ...updates }`: every key present in `updates` overrides the item's. */
  function ApplyPatch(item: TimelineItem, p: TimelinePatch): TimelineItem {
    TimelineItem(
      Over(p.id, item.id), Over(p.step, item.step), Over(p.task, item.task), Over(p.title, item.title),
      Over(p.section, item.section), Over(p.subsection, item.subsection), Over(p.subSection, item.subSection),
      Over(p.status, item.status), Over(p.role, item.role), Over(p.rnd, item.rnd), Over(p.field, item.field),
      Over(p.startDate, item.startDate), Over(p.completionDate, item.completionDate),
      Over(p.completedAt, item.completedAt), Over(p.completedBy, item.completedBy))
  }

  /** A site as the store keeps it: its checklist has been reconciled and is present. */
  datatype Site = Site(id: string, name: string, timeline: seq<TimelineItem>, checklist: seq<ChecklistItem>)

  /** A site as it arrives from the server or from storage: the checklist may be missing. */
  datatype RawSite = RawSite(id: string, name: string, timeline: seq<TimelineItem>, checklist: Option<seq<ChecklistItem>>)

  function ToRaw(s: Site): RawSite {
    RawSite(s.id, s.name, s.timeline, Some(s.checklist))
  }

  /** `ids.has(id)` over the ids of a list of sites. */
  predicate HasSiteId(sites: seq<Site>, id: string) {
    exists i :: 0 <= i < |sites| && sites[i].id == id
  }
}
