/**
 * The checklist reconciler `validateAndUpdateChecklist` of src/lib/store.js
 * (the same repair is inlined in `loadData` of src/lib/storage.js): it
 * rebuilds a missing or wrong-length checklist from the canonical one,
 * carrying over `checked` by id or by text, and strips foreign ids from a
 * checklist of the right length.
 */
module Checklist {
  import opened Wrappers
  import opened Domain
  import opened Seed

  /** `item.id === newItem.id || item.text === newItem.text`. */
  predicate Matches(item: ChecklistItem, canon: ChecklistItem) {
    item.id == canon.id || item.text == canon.text
  }

  /** The index `checklist.find` stops at: the first item matching `canon`, or `|input|` when none does. */
  function FirstMatch(input: seq<ChecklistItem>, canon: ChecklistItem): (k: nat)
    ensures k <= |input|
    ensures k < |input| ==> Matches(input[k], canon)
    ensures forall j :: 0 <= j < k ==> !Matches(input[j], canon)
  {
    if input == [] then 0
    else if Matches(input[0], canon) then 0
    else 1 + FirstMatch(input[1..], canon)
  }

  /** The `checked` value a canonical item ends with: that of its first match, else its own default. */
  function CarriedChecked(input: Option<seq<ChecklistItem>>, canon: ChecklistItem): bool {
    if input.None? then canon.checked
    else
      var k := FirstMatch(input.value, canon);
      if k < |input.value| then input.value[k].checked else canon.checked
  }

  /** The rebuild branch: a fresh canonical checklist with `checked` carried over from `input`. */
  function Rebuild(input: Option<seq<ChecklistItem>>): (r: seq<ChecklistItem>)
    ensures |r| == ChecklistSize
  {
    var seed := InitialChecklist();
    seq(ChecklistSize, i requires 0 <= i < ChecklistSize => seed[i].(checked := CarriedChecked(input, seed[i])))
  }

  /** `validIds.has(id)` for the canonical id set {1..19}. */
  predicate ValidId(id: int) {
    1 <= id <= ChecklistSize
  }

  predicate HasForeignId(c: seq<ChecklistItem>) {
    exists i :: 0 <= i < |c| && !ValidId(c[i].id)
  }

  /** `checklist.filter(item => validIds.has(item.id))`. */
  function KeepValidIds(c: seq<ChecklistItem>): (r: seq<ChecklistItem>)
    ensures |r| <= |c|
    ensures forall i :: 0 <= i < |r| ==> ValidId(r[i].id)
    ensures forall x :: x in r <==> x in c && ValidId(x.id)
  {
    if c == [] then []
    else (if ValidId(c[0].id) then [c[0]] else []) + KeepValidIds(c[1..])
  }

  /** True when `validateAndUpdateChecklist` takes the rebuild branch (`!checklist || length !== 19`). */
  predicate NeedsRebuild(c: Option<seq<ChecklistItem>>) {
    c.None? || |c.value| != ChecklistSize
  }

  /** `validateAndUpdateChecklist(checklist)` as a value. */
  function Validate(c: Option<seq<ChecklistItem>>): seq<ChecklistItem> {
    if NeedsRebuild(c) then Rebuild(c)
    else if HasForeignId(c.value) then KeepValidIds(c.value)
    else c.value
  }

  /**
   * `validateAndUpdateChecklist` as the code runs it: the rebuild branch
   * walks a fresh copy of the canonical list and overwrites each item's
   * `checked` with that of the first input item that has the same id or the
   * same text.
   */
  method ValidateAndUpdateChecklist(c: Option<seq<ChecklistItem>>) returns (r: seq<ChecklistItem>)
    ensures r == Validate(c)
  {
    if NeedsRebuild(c) {
      if c.Some? {
        r := RebuildChecklist(c.value);
      } else {
        r := InitialChecklist();
        assert forall j :: 0 <= j < ChecklistSize ==> r[j] == Rebuild(c)[j];
      }
      return r;
    }
    var hasInvalidId := exists i :: 0 <= i < |c.value| && !ValidId(c.value[i].id);
    if hasInvalidId {
      return KeepValidIds(c.value);
    }
    return c.value;
  }

  /** The loop of the rebuild branch over a present checklist. */
  method RebuildChecklist(input: seq<ChecklistItem>) returns (newChecklist: seq<ChecklistItem>)
    ensures newChecklist == Rebuild(Some(input))
  {
    newChecklist := InitialChecklist();
    ghost var seed, target := newChecklist, Rebuild(Some(input));
    for i := 0 to |newChecklist|
      invariant |newChecklist| == ChecklistSize
      invariant forall j :: 0 <= j < i ==> newChecklist[j] == target[j]
      invariant forall j :: i <= j < ChecklistSize ==> newChecklist[j] == seed[j]
    {
      var k := FirstMatch(input, newChecklist[i]);
      RebuildAt(input, i);
      if k < |input| {
        newChecklist := newChecklist[i := newChecklist[i].(checked := input[k].checked)];
      }
    }
  }

  lemma RebuildAt(input: seq<ChecklistItem>, i: nat)
    requires i < ChecklistSize
    ensures var canon := InitialChecklist()[i];
            var k := FirstMatch(input, canon);
            Rebuild(Some(input))[i] == canon.(checked := if k < |input| then input[k].checked else canon.checked)
  {
  }

  /**
   * A missing or wrong-length checklist comes back as the canonical 19 items
   * in seed order with the seed texts; an item's `checked` is that of the
   * first input item with the same id or text, and otherwise the seed
   * default, which is true except for ids 5 and 7.
   */
  lemma RebuildBranch(c: Option<seq<ChecklistItem>>)
    requires NeedsRebuild(c)
    ensures |Validate(c)| == ChecklistSize
    ensures forall i :: 0 <= i < ChecklistSize ==>
              Validate(c)[i].id == i + 1 && Validate(c)[i].text == ChecklistText(i)
    ensures forall i :: 0 <= i < ChecklistSize && c.Some? ==>
              (exists k :: 0 <= k < |c.value| && Matches(c.value[k], InitialChecklist()[i])
                 && (forall j :: 0 <= j < k ==> !Matches(c.value[j], InitialChecklist()[i]))
                 && Validate(c)[i].checked == c.value[k].checked)
              || ((forall k :: 0 <= k < |c.value| ==> !Matches(c.value[k], InitialChecklist()[i]))
                 && Validate(c)[i].checked == (i + 1 != 5 && i + 1 != 7))
    ensures c.None? ==> Validate(c) == InitialChecklist()
  {
    InitialChecklistDefaults();
    assert Validate(c) == Rebuild(c);
    forall i | 0 <= i < ChecklistSize && c.Some?
      ensures var canon := InitialChecklist()[i];
              (exists k :: 0 <= k < |c.value| && Matches(c.value[k], canon)
                 && (forall j :: 0 <= j < k ==> !Matches(c.value[j], canon))
                 && Rebuild(c)[i].checked == c.value[k].checked)
              || ((forall k :: 0 <= k < |c.value| ==> !Matches(c.value[k], canon))
                 && Rebuild(c)[i].checked == canon.checked)
    {
      RebuildItem(c.value, i);
    }
    if c.None? {
      RebuildOfNothing();
    }
  }

  /** The rebuilt item `i` carries `checked` over from its first match, or keeps the seed default. */
  lemma RebuildItem(input: seq<ChecklistItem>, i: nat)
    requires i < ChecklistSize
    ensures var r, canon := Rebuild(Some(input)), InitialChecklist()[i];
              (exists k :: 0 <= k < |input| && Matches(input[k], canon)
                 && (forall j :: 0 <= j < k ==> !Matches(input[j], canon))
                 && r[i].checked == input[k].checked)
              || ((forall k :: 0 <= k < |input| ==> !Matches(input[k], canon))
                 && r[i].checked == canon.checked)
  {
    var k := FirstMatch(input, InitialChecklist()[i]);
    if k < |input| {
      assert Rebuild(Some(input))[i].checked == input[k].checked;
    }
  }

  /** Without a checklist the rebuild is the canonical list itself. */
  lemma RebuildOfNothing()
    ensures Rebuild(None) == InitialChecklist()
  {
    var r := Rebuild(None);
    assert forall i :: 0 <= i < ChecklistSize ==> r[i] == InitialChecklist()[i];
  }

  /** An empty list (truthy in JavaScript) is rebuilt into exactly the canonical checklist. */
  lemma EmptyBecomesSeed()
    ensures Validate(Some([])) == InitialChecklist()
  {
    var r := Validate(Some([]));
    assert forall i :: 0 <= i < ChecklistSize ==> r[i] == InitialChecklist()[i];
  }

  /** A 19-item checklist whose ids all lie in 1..19 is returned unchanged, whatever its order or duplicates. */
  lemma ValidIsUnchanged(c: seq<ChecklistItem>)
    requires |c| == ChecklistSize
    requires forall i :: 0 <= i < |c| ==> ValidId(c[i].id)
    ensures Validate(Some(c)) == c
  {
  }

  /** Reconciling again changes nothing after the rebuild branch: its output is a fixed point. */
  lemma RebuildIsFixedPoint(c: Option<seq<ChecklistItem>>)
    requires NeedsRebuild(c)
    ensures Validate(Some(Validate(c))) == Validate(c)
  {
    RebuildBranch(c);
    ValidIsUnchanged(Validate(c));
  }

  /** The filter keeps the input order: filtering a concatenation filters each part in turn. */
  lemma {:induction false} KeepValidIdsConcat(a: seq<ChecklistItem>, b: seq<ChecklistItem>)
    ensures KeepValidIds(a + b) == KeepValidIds(a) + KeepValidIds(b)
  {
    if a == [] {
      assert a + b == b;
    } else {
      var head, ra, rb := if ValidId(a[0].id) then [a[0]] else [], KeepValidIds(a[1..]), KeepValidIds(b);
      assert (a + b)[0] == a[0] && (a + b)[1..] == a[1..] + b;
      KeepValidIdsConcat(a[1..], b);
      assert head + (ra + rb) == (head + ra) + rb;
    }
  }

  /** A single item is kept exactly when its id is valid. */
  lemma KeepValidIdsSingle(x: ChecklistItem)
    ensures KeepValidIds([x]) == if ValidId(x.id) then [x] else []
  {
    assert [x][1..] == [];
  }

  /** The filter keeps an item with a valid id as often as it occurs, and drops an item with a foreign id. */
  lemma {:induction false} KeepValidIdsCount(c: seq<ChecklistItem>, x: ChecklistItem)
    ensures multiset(KeepValidIds(c))[x] == if ValidId(x.id) then multiset(c)[x] else 0
  {
    if c != [] {
      var head := if ValidId(c[0].id) then [c[0]] else [];
      KeepValidIdsCount(c[1..], x);
      assert c == [c[0]] + c[1..];
      assert multiset(c) == multiset([c[0]]) + multiset(c[1..]);
      assert multiset(KeepValidIds(c)) == multiset(head) + multiset(KeepValidIds(c[1..]));
    }
  }

  /** A list with a foreign id loses at least one item to the filter. */
  lemma {:induction false} KeepValidIdsDrops(c: seq<ChecklistItem>)
    requires HasForeignId(c)
    ensures |KeepValidIds(c)| < |c|
  {
    if ValidId(c[0].id) {
      var i :| 0 <= i < |c| && !ValidId(c[i].id);
      assert c[1..][i - 1] == c[i];
      KeepValidIdsDrops(c[1..]);
    }
  }

  /**
   * A 19-item checklist with a foreign id is filtered down to its valid-id
   * items, leaving fewer than 19; reconciling that result again takes the
   * rebuild branch, so the filter branch is not a fixed point.
   */
  lemma FilterBranch(c: seq<ChecklistItem>)
    requires |c| == ChecklistSize && HasForeignId(c)
    ensures Validate(Some(c)) == KeepValidIds(c)
    ensures |Validate(Some(c))| < ChecklistSize
    ensures forall i :: 0 <= i < |Validate(Some(c))| ==> ValidId(Validate(Some(c))[i].id)
    ensures NeedsRebuild(Some(Validate(Some(c))))
    ensures Validate(Some(Validate(Some(c)))) != Validate(Some(c))
  {
    KeepValidIdsDrops(c);
    RebuildBranch(Some(KeepValidIds(c)));
  }

  /** A 19-item checklist with duplicate valid ids passes unrepaired. */
  lemma DuplicateIdsPassUnrepaired()
    ensures exists c: seq<ChecklistItem> :: |c| == ChecklistSize && c[0].id == c[1].id && Validate(Some(c)) == c
  {
    var c := seq(ChecklistSize, i => ChecklistItem(1, "", false));
    ValidIsUnchanged(c);
    assert c[0].id == c[1].id;
  }

  /** Reconciling changes a present checklist exactly when it has the wrong length or a foreign id. */
  lemma ValidateChangesIff(c: seq<ChecklistItem>)
    ensures Validate(Some(c)) != c <==> |c| != ChecklistSize || HasForeignId(c)
  {
    if |c| != ChecklistSize {
      RebuildBranch(Some(c));
    } else if HasForeignId(c) {
      FilterBranch(c);
    }
  }

  /**
   * One pass leaves only valid ids; a second pass may still rebuild (after
   * the filter branch), but a third pass changes nothing.
   */
  lemma ValidateSettles(c: Option<seq<ChecklistItem>>)
    ensures forall i :: 0 <= i < |Validate(c)| ==> ValidId(Validate(c)[i].id)
    ensures Validate(Some(Validate(Some(Validate(c))))) == Validate(Some(Validate(c)))
  {
    if NeedsRebuild(c) {
      RebuildBranch(c);
      RebuildIsFixedPoint(c);
    } else if HasForeignId(c.value) {
      FilterBranch(c.value);
      RebuildIsFixedPoint(Some(Validate(c)));
    } else {
      ValidIsUnchanged(c.value);
    }
  }
}
