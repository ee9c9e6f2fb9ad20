/**
 * The logic of the timeline page: the status a click moves an item to and the
 * update it sends, the normalisation of an item's role and the team badges it
 * shows, and the layout of the timeline into sections and rows of three cards.
 */
module TimelineView {
  import opened Wrappers
  import opened Domain
  import opened JsText
  import opened Grouping

  /** The statuses in the order a click cycles through them. */
  const StatusOrder: seq<string> := ["pending", "working", "completed"]

  /** `StatusOrder.indexOf(s)`: the position of `s`, or -1 when it is not a status. */
  function StatusIndex(s: string): (k: int)
    ensures -1 <= k < |StatusOrder|
    ensures k >= 0 ==> StatusOrder[k] == s
    ensures k == -1 <==> s !in StatusOrder
  {
    if s == "pending" then 0 else if s == "working" then 1 else if s == "completed" then 2 else -1
  }

  /** `item.status || 'pending'`: the status a card is drawn with. */
  function DisplayStatus(status: Option<string>): (r: string)
    ensures Truthy(status) ==> r == status.value
    ensures !Truthy(status) ==> r == "pending"
  {
    if Truthy(status) then status.value else "pending"
  }

  /**
   * The status after a click: the successor of the current one in the
   * cycle, where a missing status counts as pending and a status outside
   * the cycle restarts it at pending.
   */
  function NextStatus(current: Option<string>): (r: string)
    ensures r in StatusOrder
    ensures DisplayStatus(current) in StatusOrder ==>
              StatusIndex(r) == (StatusIndex(DisplayStatus(current)) + 1) % |StatusOrder|
    ensures DisplayStatus(current) !in StatusOrder ==> r == "pending"
  {
    var k := StatusIndex(DisplayStatus(current));
    StatusOrder[(k + 1) % |StatusOrder|]
  }

  /**
   * The `updates` a status click sends for an item: the next status, and a
   * completion time (`now`, the caller's clock) exactly when that status is
   * completed, `null` otherwise. No other key is touched.
   */
  function StatusUpdates(item: TimelineItem, now: string): (p: TimelinePatch)
    ensures p.status == Put(Some(NextStatus(Some(DisplayStatus(item.status)))))
    ensures p.completedAt.Put?
    ensures p.completedAt.value.Some? <==> p.status.value == Some("completed")
    ensures p.completedAt.value.Some? ==> p.completedAt.value.value == now
    ensures p.(status := Keep, completedAt := Keep) == NoChange
  {
    var next := NextStatus(Some(DisplayStatus(item.status)));
    NoChange.(status := Put(Some(next)),
              completedAt := Put(if next == "completed" then Some(now) else None))
  }

  /** The roles a card can be drawn for. */
  predicate ValidRole(r: string) {
    r == "rnd" || r == "field" || r == "both"
  }

  /**
   * `(item.role || 'both').trim().toLowerCase()`, replaced by `'both'` when
   * the result is not one of the three roles.
   */
  function NormalizeRole(role: Option<string>): (r: string)
    ensures ValidRole(r)
    ensures ValidRole(ToLowerAscii(Trim(OrElse(role, Some("both"))))) ==>
              r == ToLowerAscii(Trim(OrElse(role, Some("both"))))
    ensures !ValidRole(ToLowerAscii(Trim(OrElse(role, Some("both"))))) ==> r == "both"
  {
    var r := ToLowerAscii(Trim(OrElse(role, Some("both"))));
    if ValidRole(r) then r else "both"
  }

  /** The team badges a card carries. */
  datatype Badge = RnDBadge | FieldTeamBadge

  /** The badges of a normalised role: one per team, both for `both`. */
  function Badges(role: string): (b: seq<Badge>)
    requires ValidRole(role)
  {
    if role == "rnd" then [RnDBadge]
    else if role == "field" then [FieldTeamBadge]
    else [RnDBadge, FieldTeamBadge]
  }

  /** The key the page groups a timeline by. */
  function SectionOf(item: TimelineItem): string {
    item.section
  }

  /** `[...new Set(timeline.map(item => item.section))]`. */
  function Sections(t: seq<TimelineItem>): (ss: seq<string>)
    ensures forall s :: s in ss <==> exists i :: 0 <= i < |t| && t[i].section == s
    ensures forall i, j :: 0 <= i < j < |ss| ==> ss[i] != ss[j]
  {
    var keys := Map(t, SectionOf);
    forall s | s in keys
      ensures exists i :: 0 <= i < |t| && t[i].section == s
    {
      var i :| 0 <= i < |keys| && keys[i] == s;
    }
    Distinct(keys)
  }

  /** `timeline.filter(item => item.section === section)`. */
  function SectionItems(t: seq<TimelineItem>, section: string): (items: seq<TimelineItem>)
    ensures forall x :: x in items <==> x in t && x.section == section
  {
    Where(t, SectionOf, section)
  }

  /** The rows of cards for one section, three to a row. */
  function SectionRows(t: seq<TimelineItem>, section: string): (rows: seq<seq<TimelineItem>>)
    ensures |rows| == (|SectionItems(t, section)| + 2) / 3
  {
    Chunks(SectionItems(t, section))
  }

  // ---------------------------------------------------------------------------
  // Status cycle

  /** pending, working and completed follow each other, and a missing or empty status counts as pending. */
  lemma StatusCycle()
    ensures NextStatus(Some("pending")) == "working"
    ensures NextStatus(Some("working")) == "completed"
    ensures NextStatus(Some("completed")) == "pending"
    ensures NextStatus(None) == "working" && NextStatus(Some("")) == "working"
  {
  }

  /**
   * A card always shows a non-empty status, and a click moves on from
   * exactly the status the card shows.
   */
  lemma ShownStatusDrivesClick(s: Option<string>)
    ensures DisplayStatus(s) != ""
    ensures DisplayStatus(Some(DisplayStatus(s))) == DisplayStatus(s)
    ensures NextStatus(Some(DisplayStatus(s))) == NextStatus(s)
  {
  }

  /** Three clicks bring a card back to the status it showed. */
  lemma ThreeClicksRestore(s: Option<string>)
    requires DisplayStatus(s) in StatusOrder
    ensures NextStatus(Some(NextStatus(Some(NextStatus(s))))) == DisplayStatus(s)
  {
    var d := DisplayStatus(s);
    StatusCycle();
    assert NextStatus(s) == NextStatus(Some(d));
    assert d == "pending" || d == "working" || d == "completed";
  }

  /** On the three statuses, a click is one-to-one: two different statuses never move to the same one. */
  lemma NextStatusInjective(a: string, b: string)
    requires a in StatusOrder && b in StatusOrder
    ensures NextStatus(Some(a)) == NextStatus(Some(b)) <==> a == b
  {
    StatusCycle();
    assert a == "pending" || a == "working" || a == "completed";
    assert b == "pending" || b == "working" || b == "completed";
  }

  /**
   * After the update is merged into the item, the item holds a completion
   * time exactly when it is completed; the click advances its status and
   * changes nothing else (in particular not `completedBy`).
   */
  lemma StatusChangeEffect(item: TimelineItem, now: string)
    ensures var after := ApplyPatch(item, StatusUpdates(item, now));
      && after.status == Some(NextStatus(item.status))
      && (after.completedAt.Some? <==> after.status == Some("completed"))
      && (after.completedAt.Some? ==> after.completedAt.value == now)
      && after.(status := item.status, completedAt := item.completedAt) == item
  {
  }

  // ---------------------------------------------------------------------------
  // Roles and badges

  /** A role that is not one of the three, after trimming and lowering, is drawn as both. */
  lemma InvalidRoleIsBoth(role: string)
    requires role != ""
    requires !ValidRole(ToLowerAscii(Trim(role)))
    ensures NormalizeRole(Some(role)) == "both"
  {
  }

  /** A non-empty role whose trimmed, lowered spelling is a role is that role. */
  lemma RoleSpelledAs(role: string, r: string)
    requires role != "" && ValidRole(r)
    requires ToLowerAscii(Trim(role)) == r
    ensures NormalizeRole(Some(role)) == r
  {
  }

  lemma TrimSpacedRnD()
    ensures Trim(" RnD ") == "RnD"
  {
    TrimStartSpacedRnD();
    TrimEndSpacedRnD();
  }

  lemma TrimStartSpacedRnD()
    ensures TrimStart(" RnD ") == "RnD "
  {
    assert " RnD "[1..] == "RnD ";
    assert TrimStart("RnD ") == "RnD ";
  }

  lemma TrimEndSpacedRnD()
    ensures TrimEnd("RnD ") == "RnD"
  {
    assert "RnD "[..3] == "RnD";
    assert TrimEnd("RnD") == "RnD";
  }

  lemma LowerMixedRnD()
    ensures ToLowerAscii("RnD") == "rnd"
  {
  }

  lemma LowerRnD()
    ensures ToLowerAscii(Trim(" RnD ")) == "rnd"
  {
    TrimSpacedRnD();
    LowerMixedRnD();
  }

  lemma LowerField()
    ensures ToLowerAscii(Trim("FIELD")) == "field"
  {
    TrimUnchanged("FIELD");
    assert ToLowerAscii("FIELD") == "field";
  }

  /** Spacing and letter case do not matter: `' RnD '` is `rnd` and `FIELD` is `field`. */
  lemma RoleSpellings()
    ensures NormalizeRole(Some(" RnD ")) == "rnd"
    ensures NormalizeRole(Some("FIELD")) == "field"
  {
    LowerRnD();
    RoleSpelledAs(" RnD ", "rnd");
    LowerField();
    RoleSpelledAs("FIELD", "field");
  }

  /** A missing or empty role is `both`. */
  lemma MissingRoleIsBoth()
    ensures NormalizeRole(None) == "both" && NormalizeRole(Some("")) == "both"
  {
    RoleIsCanonical("both");
  }

  /** The three roles are already trimmed and lower-case. */
  lemma RoleIsCanonical(r: string)
    requires ValidRole(r)
    ensures ToLowerAscii(Trim(r)) == r
  {
    if r == "rnd" {
      RndIsCanonical();
    } else if r == "field" {
      FieldIsCanonical();
    } else {
      BothIsCanonical();
    }
  }

  lemma RndIsCanonical()
    ensures ToLowerAscii(Trim("rnd")) == "rnd"
  {
    TrimUnchanged("rnd");
    LowerUnchanged("rnd");
  }

  lemma FieldIsCanonical()
    ensures ToLowerAscii(Trim("field")) == "field"
  {
    TrimUnchanged("field");
    LowerUnchanged("field");
  }

  lemma BothIsCanonical()
    ensures ToLowerAscii(Trim("both")) == "both"
  {
    TrimUnchanged("both");
    LowerUnchanged("both");
  }

  /** Normalising a normalised role changes nothing. */
  lemma NormalizeRoleIdempotent(role: Option<string>)
    ensures NormalizeRole(Some(NormalizeRole(role))) == NormalizeRole(role)
  {
    var r := NormalizeRole(role);
    assert OrElse(Some(r), Some("both")) == r;
    RoleIsCanonical(r);
  }

  /**
   * Every card carries at least one badge: an R&D badge unless its role is
   * field, and a field-team badge unless its role is rnd.
   */
  lemma BadgesOfRole(role: Option<string>)
    ensures var r := NormalizeRole(role);
      && |Badges(r)| >= 1
      && (RnDBadge in Badges(r) <==> r != "field")
      && (FieldTeamBadge in Badges(r) <==> r != "rnd")
  {
    BadgesOfValidRole(NormalizeRole(role));
  }

  /** The badges of each of the three normalised roles. */
  lemma BadgesOfValidRole(r: string)
    requires ValidRole(r)
    ensures && |Badges(r)| >= 1
            && (RnDBadge in Badges(r) <==> r != "field")
            && (FieldTeamBadge in Badges(r) <==> r != "rnd")
  {
    if r == "rnd" {
      assert r != "field";
    } else if r == "field" {
      assert r != "rnd";
    } else {
      assert r == "both";
      assert r != "rnd" && r != "field";
    }
  }

  // ---------------------------------------------------------------------------
  // Sections and rows

  /**
   * The sections partition the timeline: each item shows under exactly the
   * section it names, each section is non-empty, and the sections hold
   * every item as often as it occurs.
   */
  lemma SectionsPartition(t: seq<TimelineItem>)
    ensures forall k :: 0 <= k < |Sections(t)| ==> |SectionItems(t, Sections(t)[k])| > 0
    ensures forall x, k :: x in t && 0 <= k < |Sections(t)| ==>
              (x in SectionItems(t, Sections(t)[k]) <==> x.section == Sections(t)[k])
    ensures var groups := seq(|Sections(t)|, k requires 0 <= k < |Sections(t)| => SectionItems(t, Sections(t)[k]));
              multiset(Flatten(groups)) == multiset(t)
  {
    GroupByGroups(t, SectionOf);
    GroupByPartition(t, SectionOf);
    var groups := seq(|Sections(t)|, k requires 0 <= k < |Sections(t)| => SectionItems(t, Sections(t)[k]));
    assert groups == GroupBy(t, SectionOf);
  }

  /** The sections come in the order in which each first appears in the timeline. */
  lemma SectionsInFirstOccurrenceOrder(t: seq<TimelineItem>)
    ensures var key := Map(t, SectionOf);
      forall i, j :: 0 <= i < j < |Sections(t)| ==> FirstOccurrence(key, Sections(t)[i]) < FirstOccurrence(key, Sections(t)[j])
  {
    DistinctFirstOccurrenceOrder(Map(t, SectionOf));
  }

  /**
   * A section's rows hold one to three cards each, all but the last hold
   * three, and read row after row they are the section's items in
   * timeline order.
   */
  lemma RowsCoverSection(t: seq<TimelineItem>, section: string)
    ensures var rows := SectionRows(t, section);
      && (forall r :: 0 <= r < |rows| ==> 1 <= |rows[r]| <= 3)
      && (forall r :: 0 <= r < |rows| - 1 ==> |rows[r]| == 3)
      && Flatten(rows) == SectionItems(t, section)
  {
    ChunksShape(SectionItems(t, section));
  }
}
