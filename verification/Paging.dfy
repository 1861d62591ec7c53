/**
 Cursor paging (packages/durable/src/memory-storage.ts, `page` and the three scans): what a page is, and
 why a reader that follows the cursors sees everything exactly once while the store keeps growing.
 */
module Paging {
  import opened Wrappers
  import opened SortedIds
  import opened DurableTables
  import opened Visibility

  /** One page; `next` is the cursor to continue after, absent on the last page. */
  datatype Page<+T> = Page(items: seq<T>, next: Option<Id>)

  /** The page of at most `limit` ids taken from the front of `ids`. */
  function PageOf(ids: seq<Id>, limit: nat): (page: Page<Id>)
    requires limit > 0 || ids == []
    ensures page.items <= ids && |page.items| == if limit < |ids| then limit else |ids|
    ensures page.next == if limit < |ids| then Some(page.items[limit - 1]) else None
  {
    if |ids| <= limit then Page(ids, None) else Page(ids[..limit], Some(ids[limit - 1]))
  }

  /** Everything a reader received, and the cursor it would continue with. */
  datatype Reading = Reading(items: seq<Id>, next: Option<Id>)

  // ----- Ascending scans ------------------------------------------------------------------------

  ghost function After(s: set<Id>, cursor: Option<Id>): set<Id> {
    set x <- s | cursor.None? || cursor.value < x
  }

  /** One request of a scan over the ids `matching` at that moment. */
  datatype Request = Request(matching: set<Id>, limit: nat)

  ghost function FollowUp(cursor: Option<Id>, requests: seq<Request>): Reading
    requires Positive(requests)
    decreases |requests|
  {
    if requests == [] then Reading([], cursor)
    else
      var page := PageOf(Oldest(After(requests[0].matching, cursor)), requests[0].limit);
      if page.next.None? then Reading(page.items, None)
      else
        var later := FollowUp(page.next, requests[1..]);
        Reading(page.items + later.items, later.next)
  }

  predicate Positive(requests: seq<Request>) {
    forall i :: 0 <= i < |requests| ==> requests[i].limit > 0
  }

  ghost predicate Growing(requests: seq<Request>) {
    forall i, j :: 0 <= i <= j < |requests| ==> requests[i].matching <= requests[j].matching
  }

  /** Cutting an ascending enumeration cuts the set at the id before the cut. */
  lemma CutEnumeration(ids: seq<Id>, s: set<Id>, k: nat)
    requires Enumerates(ids, s) && 0 < k <= |ids|
    ensures Enumerates(ids[..k], set x <- s | x <= ids[k - 1])
    ensures Enumerates(ids[k..], set x <- s | ids[k - 1] < x)
  {
    assert ids == ids[..k] + ids[k..];
  }

  /**
   What following the cursors of an ascending scan promises, when `first` matched at the start and `last`
   at the end: strictly ascending ids that match at the end, and every id that matched at the start
   unless it still lies after the final cursor.
   */
  ghost predicate ExactReading(cursor: Option<Id>, first: set<Id>, last: set<Id>, reading: Reading) {
    && Ascending(reading.items)
    && (forall x <- reading.items :: x in After(last, cursor))
    && (reading.next.Some? ==> forall x <- reading.items :: x <= reading.next.value)
    && (cursor.Some? && reading.next.Some? ==> cursor.value <= reading.next.value)
    && (forall x <- After(first, cursor) :: x in reading.items || (reading.next.Some? && reading.next.value < x))
  }

  lemma OnePageExact(cursor: Option<Id>, s: set<Id>, limit: nat)
    requires limit > 0
    ensures var page := PageOf(Oldest(After(s, cursor)), limit);
            ExactReading(cursor, s, s, Reading(page.items, page.next))
  {
    var ids := Oldest(After(s, cursor));
    if |ids| > limit {
      CutEnumeration(ids, After(s, cursor), limit);
      assert ids[limit - 1] in ids;
      assert forall x <- After(s, cursor) :: x in ids;
    }
  }

  lemma PagesCompose(cursor: Option<Id>, s: set<Id>, page: Reading, first: set<Id>, last: set<Id>, later: Reading)
    requires s <= first && s <= last && page.next.Some?
    requires ExactReading(cursor, s, s, page) && ExactReading(page.next, first, last, later)
    ensures ExactReading(cursor, s, last, Reading(page.items + later.items, later.next))
  {
    var a, b, n := page.items, later.items, page.next.value;
    forall i | 0 <= i < |a| ensures a[i] <= n {
      assert a[i] in a;
    }
    forall i | 0 <= i < |b| ensures n < b[i] {
      assert b[i] in b;
    }
    forall x | x in After(s, cursor)
      ensures x in a + b || (later.next.Some? && later.next.value < x)
    {
      if x !in a {
        assert x in After(first, page.next);
      }
    }
  }

  /**
   While matching ids are only added, a reader that follows the cursors with any positive limits gets an
   exact reading; at the end of the scan it has seen every id that matched from the start.
   */
  lemma {:induction false} AscendingScanExact(cursor: Option<Id>, requests: seq<Request>)
    requires requests != [] && Growing(requests)
    requires Positive(requests)
    ensures ExactReading(cursor, requests[0].matching, requests[|requests| - 1].matching, FollowUp(cursor, requests))
    decreases |requests|
  {
    var s, last := requests[0].matching, requests[|requests| - 1].matching;
    var page := PageOf(Oldest(After(s, cursor)), requests[0].limit);
    OnePageExact(cursor, s, requests[0].limit);
    if page.next.None? || |requests| == 1 {
      assert page.items + [] == page.items;
      if |requests| == 1 {
        assert requests[1..] == [];
        assert FollowUp(page.next, []) == Reading([], page.next);
      }
    } else {
      AscendingScanExact(page.next, requests[1..]);
      PagesCompose(cursor, s, Reading(page.items, page.next), requests[1].matching, last,
                   FollowUp(page.next, requests[1..]));
    }
  }

  /** A full page followed by what its cursor leaves is the whole list. */
  lemma FullPageSplits(cursor: Option<Id>, s: set<Id>, limit: nat)
    requires 0 < limit < |Oldest(After(s, cursor))|
    ensures var ids := Oldest(After(s, cursor));
            ids == ids[..limit] + Oldest(After(s, Some(ids[limit - 1])))
  {
    var ids := Oldest(After(s, cursor));
    var next := Some(ids[limit - 1]);
    CutEnumeration(ids, After(s, cursor), limit);
    assert ids[limit - 1] in ids;
    assert (set x <- After(s, cursor) | ids[limit - 1] < x) == After(s, next);
    OldestIs(ids[limit..], After(s, next));
  }

  /** The items received and the ids after the final cursor make up the whole list; without a cursor nothing is left. */
  ghost predicate SpellsOut(ids: seq<Id>, s: set<Id>, started: bool, reading: Reading) {
    if started && reading.next.None? then reading.items == ids
    else ids == reading.items + Oldest(After(s, reading.next))
  }

  /**
   On an unchanged store the pages spell out the ascending list of matching ids, and enough requests reach its end.
   */
  lemma {:induction false} UnchangedScanExact(cursor: Option<Id>, s: set<Id>, requests: seq<Request>)
    requires Positive(requests) && forall i :: 0 <= i < |requests| ==> requests[i].matching == s
    ensures SpellsOut(Oldest(After(s, cursor)), s, requests != [], FollowUp(cursor, requests))
    ensures |Oldest(After(s, cursor))| < |requests| ==> FollowUp(cursor, requests).next.None?
    decreases |requests|
  {
    var ids := Oldest(After(s, cursor));
    if requests == [] {
      assert [] + ids == ids;
    } else {
      var limit := requests[0].limit;
      if |ids| > limit {
        var next := Some(ids[limit - 1]);
        UnchangedScanExact(next, s, requests[1..]);
        FullPageSplits(cursor, s, limit);
        PagesSpellOut(ids, s, ids[..limit], next, requests[1..] != [], FollowUp(next, requests[1..]));
      }
    }
  }

  lemma PagesSpellOut(ids: seq<Id>, s: set<Id>, page: seq<Id>, next: Option<Id>, started: bool, later: Reading)
    requires ids == page + Oldest(After(s, next))
    requires SpellsOut(Oldest(After(s, next)), s, started, later)
    requires !started ==> later == Reading([], next) && next.Some?
    ensures SpellsOut(ids, s, true, Reading(page + later.items, later.next))
  {
    if started && later.next.None? {
    } else {
      assert ids == page + (later.items + Oldest(After(s, later.next)));
      assert ids == (page + later.items) + Oldest(After(s, later.next));
    }
  }

  // ----- Newest-first scans of forked history ---------------------------------------------------

  datatype EntryQuery = EntryQuery(conversationId: Id, minEntryId: Option<Id>, maxEntryId: Option<Id>)

  /** The ids of a newest-first walk that are not below `lower`. */
  function Keep(ids: seq<Id>, lower: Option<Id>): seq<Id> {
    if ids == [] then []
    else (if AtLeast(ids[0], lower) then [ids[0]] else []) + Keep(ids[1..], lower)
  }

  /** The cutoff of a scan that continues after `cursor`. */
  function Cutoff(query: EntryQuery, cursor: Option<Id>): Option<Id> {
    if cursor.None? then query.maxEntryId else Some(Lower(query.maxEntryId, cursor.value - 1))
  }

  /** What a scan still has to deliver, in the order the store visits it. */
  ghost function EntryRange(t: Tables, query: EntryQuery, cursor: Option<Id>): seq<Id>
    requires Ancestry(t) && query.conversationId in t.conversations
  {
    Keep(Walk(t, query.conversationId, Cutoff(query, cursor)), query.minEntryId)
  }

  ghost function InRange(t: Tables, query: EntryQuery): set<Id>
    requires Ancestry(t) && query.conversationId in t.conversations
  {
    set x <- Visible(t, query.conversationId, None)
      | (query.maxEntryId == None || x <= query.maxEntryId.value)
        && (query.minEntryId == None || query.minEntryId.value <= x)
  }

  ghost function Before(s: set<Id>, cursor: Option<Id>): set<Id> {
    set x <- s | cursor.None? || x < cursor.value
  }

  lemma {:induction false} KeepSelects(ids: seq<Id>, lower: Option<Id>)
    ensures forall x :: x in Keep(ids, lower) <==> x in ids && AtLeast(x, lower)
  {
    if ids != [] {
      KeepSelects(ids[1..], lower);
      assert ids == [ids[0]] + ids[1..];
    }
  }

  lemma {:induction false} KeepFilters(ids: seq<Id>, lower: Option<Id>)
    requires Descending(ids)
    ensures Descending(Keep(ids, lower))
    ensures forall x :: x in Keep(ids, lower) <==> x in ids && AtLeast(x, lower)
  {
    KeepSelects(ids, lower);
    if ids != [] {
      KeepFilters(ids[1..], lower);
      KeepSelects(ids[1..], lower);
      var rest := Keep(ids[1..], lower);
      forall i | 0 <= i < |rest| ensures rest[i] < ids[0] {
        assert rest[i] in rest && rest[i] in ids[1..];
      }
    }
  }

  lemma RangeBounds(t: Tables, query: EntryQuery, x: Id)
    requires Ancestry(t) && query.conversationId in t.conversations
    ensures x in InRange(t, query) <==>
      x in Visible(t, query.conversationId, None) && AtMost(x, query.maxEntryId) && AtLeast(x, query.minEntryId)
  {
  }

  /** A scan delivers the visible entries between its bounds and below its cursor, newest first. */
  lemma EntryRangeIsNewest(t: Tables, query: EntryQuery, cursor: Option<Id>)
    requires Ancestry(t) && ForkFloor(t) && query.conversationId in t.conversations
    ensures EntryRange(t, query, cursor) == Newest(Before(InRange(t, query), cursor))
  {
    var walk := Walk(t, query.conversationId, Cutoff(query, cursor));
    WalkIsNewestVisible(t, query.conversationId, Cutoff(query, cursor));
    KeepFilters(walk, query.minEntryId);
    forall x ensures x in Keep(walk, query.minEntryId) <==> x in Before(InRange(t, query), cursor) {
      CutoffBounds(t, query, cursor, x);
    }
    NewestIs(Keep(walk, query.minEntryId), Before(InRange(t, query), cursor));
  }

  lemma CutoffBounds(t: Tables, query: EntryQuery, cursor: Option<Id>, x: Id)
    requires Ancestry(t) && query.conversationId in t.conversations
    ensures x in Before(InRange(t, query), cursor) <==>
      x in Visible(t, query.conversationId, Cutoff(query, cursor)) && AtLeast(x, query.minEntryId)
  {
    VisibleCut(t, query.conversationId, Cutoff(query, cursor), x);
    RangeBounds(t, query, x);
  }

  ghost function FollowDown(cursor: Option<Id>, requests: seq<Request>): Reading
    requires Positive(requests)
    decreases |requests|
  {
    if requests == [] then Reading([], cursor)
    else
      var page := PageOf(Newest(Before(requests[0].matching, cursor)), requests[0].limit);
      if page.next.None? then Reading(page.items, None)
      else
        var later := FollowDown(page.next, requests[1..]);
        Reading(page.items + later.items, later.next)
  }

  /** Between two pages the ids below the cursor stay as they were. */
  ghost predicate Undisturbed(cursor: Option<Id>, requests: seq<Request>)
    requires Positive(requests)
    decreases |requests|
  {
    |requests| > 1 ==>
      var next := PageOf(Newest(Before(requests[0].matching, cursor)), requests[0].limit).next;
      next.Some? ==>
        && Before(requests[1].matching, next) == Before(requests[0].matching, next)
        && Undisturbed(next, requests[1..])
  }

  lemma CutEnumerationDown(ids: seq<Id>, s: set<Id>, k: nat)
    requires EnumeratesDown(ids, s) && 0 < k <= |ids|
    ensures EnumeratesDown(ids[k..], set x <- s | x < ids[k - 1])
  {
    assert ids == ids[..k] + ids[k..];
  }

  lemma FullPageSplitsDown(cursor: Option<Id>, s: set<Id>, limit: nat)
    requires 0 < limit < |Newest(Before(s, cursor))|
    ensures var ids := Newest(Before(s, cursor));
            ids == ids[..limit] + Newest(Before(s, Some(ids[limit - 1])))
  {
    var ids := Newest(Before(s, cursor));
    var next := Some(ids[limit - 1]);
    CutEnumerationDown(ids, Before(s, cursor), limit);
    assert ids[limit - 1] in ids;
    assert (set x <- Before(s, cursor) | x < ids[limit - 1]) == Before(s, next);
    NewestIs(ids[limit..], Before(s, next));
  }

  /** A descending reading of `ids`: what was received, followed by what of `s` is still below the final cursor. */
  ghost predicate SpellsDown(ids: seq<Id>, s: set<Id>, cursor: Option<Id>, reading: Reading) {
    && (if reading.next.None? then reading.items == ids
        else ids == reading.items + Newest(Before(s, reading.next)))
    && (reading.next.Some? && cursor.Some? ==> reading.next.value < cursor.value)
  }

  lemma PagesSpellDown(s: set<Id>, s': set<Id>, cursor: Option<Id>, page: seq<Id>, next: Option<Id>, later: Reading)
    requires next.Some? && (cursor.Some? ==> next.value < cursor.value)
    requires Before(s', next) == Before(s, next)
    requires Newest(Before(s, cursor)) == page + Newest(Before(s, next))
    requires SpellsDown(Newest(Before(s', next)), s', next, later)
    ensures SpellsDown(Newest(Before(s, cursor)), s, cursor, Reading(page + later.items, later.next))
  {
    if later.next.Some? {
      assert Before(s', later.next) == Before(Before(s', next), later.next);
      assert Before(s, later.next) == Before(Before(s, next), later.next);
      assert page + (later.items + Newest(Before(s, later.next)))
          == (page + later.items) + Newest(Before(s, later.next));
    }
  }

  /**
   Following the cursors spells out the list there was at the first page, whatever appears above the cursors meanwhile.
   */
  lemma {:induction false} DescendingScanExact(cursor: Option<Id>, requests: seq<Request>)
    requires requests != [] && Positive(requests)
    requires Undisturbed(cursor, requests)
    ensures var s := requests[0].matching;
            && SpellsDown(Newest(Before(s, cursor)), s, cursor, FollowDown(cursor, requests))
            && (|Newest(Before(s, cursor))| < |requests| ==> FollowDown(cursor, requests).next.None?)
    decreases |requests|
  {
    var s := requests[0].matching;
    var ids := Newest(Before(s, cursor));
    var limit := requests[0].limit;
    if |ids| > limit {
      var next := Some(ids[limit - 1]);
      assert ids[limit - 1] in ids;
      FullPageSplitsDown(cursor, s, limit);
      if |requests| == 1 {
        assert FollowDown(next, requests[1..]) == Reading([], next);
        assert ids[..limit] + [] == ids[..limit];
      } else {
        DescendingScanExact(next, requests[1..]);
        PagesSpellDown(s, requests[1].matching, cursor, ids[..limit], next, FollowDown(next, requests[1..]));
      }
    }
  }

  // ----- The same for the store itself ----------------------------------------------------------

  /** One `scanEntries` call: the store as it is then, and the limit asked for. */
  datatype EntryRequest = EntryRequest(store: Tables, limit: nat)

  ghost predicate Scannable(query: EntryQuery, r: EntryRequest) {
    r.limit > 0 && Ancestry(r.store) && ForkFloor(r.store) && query.conversationId in r.store.conversations
  }

  ghost predicate AllScannable(query: EntryQuery, requests: seq<EntryRequest>) {
    forall i :: 0 <= i < |requests| ==> Scannable(query, requests[i])
  }

  ghost function FollowEntries(query: EntryQuery, cursor: Option<Id>, requests: seq<EntryRequest>): Reading
    requires AllScannable(query, requests)
    decreases |requests|
  {
    if requests == [] then Reading([], cursor)
    else
      var page := PageOf(EntryRange(requests[0].store, query, cursor), requests[0].limit);
      if page.next.None? then Reading(page.items, None)
      else
        var later := FollowEntries(query, page.next, requests[1..]);
        Reading(page.items + later.items, later.next)
  }

  /** No conversation or entry of `t` is missing or different in `later`. */
  ghost predicate OnlyAdds(t: Tables, later: Tables) {
    && (forall c <- t.conversations :: c in later.conversations && later.conversations[c] == t.conversations[c])
    && (forall e <- t.entries :: e in later.entries && later.entries[e] == t.entries[e])
  }

  /** `later` is `t` with conversations and entries added, all entries above `floor`. */
  ghost predicate GrowsAbove(t: Tables, later: Tables, floor: Id) {
    OnlyAdds(t, later) && forall e <- later.entries :: e !in t.entries ==> e > floor
  }

  ghost predicate EntriesAbove(ops: seq<Operation>, floor: Id) {
    forall i, j :: 0 <= i < |ops| && ops[i].Commit? && 0 <= j < |ops[i].writes| && ops[i].writes[j].EntryWrite?
      ==> floor < ops[i].writes[j].entry.id
  }

  ghost predicate GrowsBy(t: Tables, later: Tables, floor: Id, above: bool) {
    OnlyAdds(t, later) && (above ==> GrowsAbove(t, later, floor))
  }

  lemma WriteOnlyAdds(t: Tables, before: Tables, w: Write, floor: Id, above: bool)
    requires GrowsBy(t, before, floor, above) && Admissible(before, w)
    requires above && w.EntryWrite? ==> floor < w.entry.id
    ensures GrowsBy(t, Apply(before, w), floor, above)
  {
    assert Holds(before, w.Table(), w.Id()) ==> !w.Table().Immutable();
  }

  lemma BatchOnlyAdds(t: Tables, writes: seq<Write>, floor: Id, above: bool)
    requires Acceptable(t, writes)
    requires above ==> forall j :: 0 <= j < |writes| && writes[j].EntryWrite? ==> floor < writes[j].entry.id
    ensures GrowsBy(t, ApplyAll(t, writes), floor, above)
  {
    var good := (u: Tables) => GrowsBy(t, u, floor, above);
    forall i | 0 <= i < |writes| && good(ApplyAll(t, writes[..i]))
      ensures good(Apply(ApplyAll(t, writes[..i]), writes[i]))
    {
      WriteOnlyAdds(t, ApplyAll(t, writes[..i]), writes[i], floor, above);
    }
    BatchInduction(good, t, writes, |writes|);
    assert writes[..|writes|] == writes;
  }

  lemma GrowsOnward(t: Tables, before: Tables, later: Tables, floor: Id, above: bool)
    requires GrowsBy(t, before, floor, above) && GrowsBy(before, later, floor, above)
    ensures GrowsBy(t, later, floor, above)
  {
  }

  /**
   Any run of commits only adds conversations and entries; if its entries are above a cursor, the store grows above it.
   */
  lemma {:induction false} RunOnlyAdds(t: Tables, ops: seq<Operation>, floor: Id)
    ensures GrowsBy(t, Run(t, ops), floor, EntriesAbove(ops, floor))
  {
    if ops != [] {
      var earlier, op := ops[..|ops| - 1], ops[|ops| - 1];
      RunOnlyAdds(t, earlier, floor);
      var before, above := Run(t, earlier), EntriesAbove(ops, floor);
      assert above ==> EntriesAbove(earlier, floor);
      if op.Commit? && Acceptable(before, op.writes) {
        BatchOnlyAdds(before, op.writes, floor, above);
        GrowsOnward(t, before, ApplyAll(before, op.writes), floor, above);
      }
    }
  }

  ghost predicate GrowsAboveCursors(query: EntryQuery, cursor: Option<Id>, requests: seq<EntryRequest>)
    requires AllScannable(query, requests)
    decreases |requests|
  {
    |requests| > 1 ==>
      var next := PageOf(EntryRange(requests[0].store, query, cursor), requests[0].limit).next;
      next.Some? ==>
        && GrowsAbove(requests[0].store, requests[1].store, next.value)
        && GrowsAboveCursors(query, next, requests[1..])
  }

  /** Entries added above a cutoff change nothing below it, in the conversation or in any ancestor. */
  lemma {:induction false} GrowthIsInvisibleBelow(t: Tables, later: Tables, floor: Id, c: Id, upper: Id)
    requires Ancestry(t) && Ancestry(later) && GrowsAbove(t, later, floor)
    requires c in t.conversations && upper <= floor
    ensures Visible(later, c, Some(upper)) == Visible(t, c, Some(upper))
    decreases Rank(t.order, c)
  {
    assert OwnUpTo(later, c, Some(upper)) == OwnUpTo(t, c, Some(upper));
    var parent := t.conversations[c].parent;
    if parent.Some? {
      GrowthIsInvisibleBelow(t, later, floor, parent.value.conversationId, Lower(Some(upper), parent.value.at));
    }
  }

  lemma GrowthKeepsRange(t: Tables, later: Tables, floor: Id, query: EntryQuery)
    requires Ancestry(t) && Ancestry(later) && GrowsAbove(t, later, floor)
    requires query.conversationId in t.conversations
    ensures Before(InRange(later, query), Some(floor)) == Before(InRange(t, query), Some(floor))
  {
    var c := query.conversationId;
    GrowthIsInvisibleBelow(t, later, floor, c, floor);
    forall x | x < floor ensures x in Visible(later, c, None) <==> x in Visible(t, c, None) {
      VisibleCut(t, c, Some(floor), x);
      VisibleCut(later, c, Some(floor), x);
    }
  }

  ghost function Matchings(query: EntryQuery, requests: seq<EntryRequest>): (r: seq<Request>)
    requires AllScannable(query, requests)
    ensures |r| == |requests|
    ensures forall i :: 0 <= i < |r| ==>
      r[i].limit == requests[i].limit && r[i].matching == InRange(requests[i].store, query)
  {
    seq(|requests|, i requires 0 <= i < |requests| => Request(InRange(requests[i].store, query), requests[i].limit))
  }

  lemma {:induction false} FollowEntriesIsFollowDown(query: EntryQuery, cursor: Option<Id>, requests: seq<EntryRequest>)
    requires AllScannable(query, requests)
    requires GrowsAboveCursors(query, cursor, requests)
    ensures var sets := Matchings(query, requests);
            && Positive(sets)
            && Undisturbed(cursor, sets)
            && FollowEntries(query, cursor, requests) == FollowDown(cursor, sets)
    decreases |requests|
  {
    var sets := Matchings(query, requests);
    if requests != [] {
      EntryRangeIsNewest(requests[0].store, query, cursor);
      var page := PageOf(EntryRange(requests[0].store, query, cursor), requests[0].limit);
      if page.next.Some? {
        assert sets[1..] == Matchings(query, requests[1..]);
        if |requests| > 1 {
          GrowthKeepsRange(requests[0].store, requests[1].store, page.next.value, query);
          FollowEntriesIsFollowDown(query, page.next, requests[1..]);
        }
      }
    }
  }

  /**
   Paging over forked history is exact: following `scanEntries` cursors with any positive limits delivers,
   newest first, exactly the entries that were visible and in range at the first page and below its cursor,
   even if commits between the pages add entries above the cursors; enough requests reach the end.
   */
  lemma ForkedScanExact(query: EntryQuery, cursor: Option<Id>, requests: seq<EntryRequest>)
    requires requests != []
    requires AllScannable(query, requests)
    requires GrowsAboveCursors(query, cursor, requests)
    ensures var s := InRange(requests[0].store, query);
            && SpellsDown(Newest(Before(s, cursor)), s, cursor, FollowEntries(query, cursor, requests))
            && (|Newest(Before(s, cursor))| < |requests| ==> FollowEntries(query, cursor, requests).next.None?)
  {
    FollowEntriesIsFollowDown(query, cursor, requests);
    DescendingScanExact(cursor, Matchings(query, requests));
  }

  // ----- Forked history of a growing store --------------------------------------------------------

  /** Some operations that the Session could make lead from one store to the next. */
  ghost predicate Leads(t: Tables, ops: seq<Operation>, later: Tables) {
    later == Run(t, ops) && GenealogicalRun(t, ops)
  }

  ghost predicate Continued(stores: seq<Tables>, ops: seq<seq<Operation>>) {
    0 < |stores| == |ops| + 1 && forall k :: 0 <= k < |ops| ==> Leads(stores[k], ops[k], stores[k + 1])
  }

  /** Every entry written has an id that was handed out later than `first`. */
  ghost predicate EntriesFrom(ops: seq<seq<Operation>>, first: Id) {
    forall k :: 0 <= k < |ops| ==> EntriesAbove(ops[k], first - 1)
  }

  ghost predicate ReadyToScan(query: EntryQuery, t: Tables) {
    Consistent(t) && Ancestry(t) && ForkFloor(t) && query.conversationId in t.conversations
  }

  ghost function EntryRequests(stores: seq<Tables>, limits: seq<nat>): (r: seq<EntryRequest>)
    requires |stores| == |limits|
    ensures |r| == |stores|
    ensures forall i :: 0 <= i < |r| ==> r[i] == EntryRequest(stores[i], limits[i])
  {
    seq(|stores|, i requires 0 <= i < |stores| => EntryRequest(stores[i], limits[i]))
  }

  lemma StaysReady(query: EntryQuery, t: Tables, ops: seq<Operation>, later: Tables)
    requires ReadyToScan(query, t) && Leads(t, ops, later)
    ensures ReadyToScan(query, later)
  {
    RunKeepsAncestry(t, ops);
    RunKeepsConversations(t, ops);
    assert query.conversationId in t.conversations.Keys;
  }

  lemma StoresReady(query: EntryQuery, stores: seq<Tables>, ops: seq<seq<Operation>>, k: nat)
    requires Continued(stores, ops) && ReadyToScan(query, stores[0]) && k < |stores|
    ensures ReadyToScan(query, stores[k])
  {
    var ready := (i: nat) => i < |stores| && ReadyToScan(query, stores[i]);
    forall i: nat | i < k && ready(i) ensures ready(i + 1) {
      StaysReady(query, stores[i], ops[i], stores[i + 1]);
    }
    HoldsFrom(ready, 0, k);
  }

  lemma {:induction false} VisibleAreEntries(t: Tables, c: Id, upper: Option<Id>)
    requires Ancestry(t) && c in t.conversations
    ensures Visible(t, c, upper) <= t.entries.Keys
    decreases Rank(t.order, c)
  {
    var parent := t.conversations[c].parent;
    if parent.Some? {
      VisibleAreEntries(t, parent.value.conversationId, Some(Lower(upper, parent.value.at)));
    }
  }

  /** The cursor of a page is an entry of the store, and below the cursor before it. */
  lemma CursorDescends(t: Tables, query: EntryQuery, cursor: Option<Id>, limit: nat)
    requires ReadyToScan(query, t) && limit > 0
    ensures var next := PageOf(EntryRange(t, query, cursor), limit).next;
      next.Some? ==> next.value < t.nextId && (cursor.Some? ==> next.value < cursor.value)
  {
    var ids := EntryRange(t, query, cursor);
    EntryRangeIsNewest(t, query, cursor);
    if |ids| > limit {
      var x := ids[limit - 1];
      assert x in ids;
      NewestMembers(Before(InRange(t, query), cursor));
      assert x in Before(InRange(t, query), cursor);
      VisibleAreEntries(t, query.conversationId, None);
      assert x in t.entries.Keys && Holds(t, EntryTable, x);
    }
  }

  lemma AddedAbove(t: Tables, ops: seq<Operation>, later: Tables, floor: Id, first: Id)
    requires Leads(t, ops, later) && EntriesAbove(ops, first - 1) && floor < first
    ensures GrowsAbove(t, later, floor)
  {
    assert EntriesAbove(ops, floor);
    RunOnlyAdds(t, ops, floor);
  }

  /** From the i-th page on, the cursors of a scan stay below what is written after it began. */
  lemma {:induction false} CursorsStayBelow(query: EntryQuery, cursor: Option<Id>, stores: seq<Tables>,
                                            requests: seq<EntryRequest>, ops: seq<seq<Operation>>, first: Id, i: nat)
    requires Continued(stores, ops) && |requests| == |stores| && i < |stores|
    requires forall k :: 0 <= k < |stores| ==> ReadyToScan(query, stores[k])
    requires forall k :: 0 <= k < |stores| ==> requests[k].store == stores[k] && requests[k].limit > 0
    requires EntriesFrom(ops, first) && (stores[i].nextId <= first || (cursor.Some? && cursor.value < first))
    requires AllScannable(query, requests[i..])
    ensures GrowsAboveCursors(query, cursor, requests[i..])
    decreases |stores| - i
  {
    var next := PageOf(EntryRange(stores[i], query, cursor), requests[i].limit).next;
    CursorDescends(stores[i], query, cursor, requests[i].limit);
    if i + 1 < |stores| && next.Some? {
      AddedAbove(stores[i], ops[i], stores[i + 1], next.value, first);
      assert requests[i..][1..] == requests[i + 1..];
      CursorsStayBelow(query, next, stores, requests, ops, first, i + 1);
    }
  }

  /**
   Whatever the Session commits between the pages of `scanEntries`, as long as entries get ids handed out after the scan
   began: following the cursors delivers, newest first, exactly the entries that were visible and in range at the first
   page and below its cursor, of the conversation and of everything it forked from.
   */
  lemma EntryScanExact(query: EntryQuery, cursor: Option<Id>, stores: seq<Tables>, limits: seq<nat>,
                       ops: seq<seq<Operation>>)
    requires Continued(stores, ops) && |stores| == |limits| && ReadyToScan(query, stores[0])
    requires forall k :: 0 <= k < |limits| ==> limits[k] > 0
    requires EntriesFrom(ops, stores[0].nextId)
    ensures AllScannable(query, EntryRequests(stores, limits))
    ensures var s, reading := InRange(stores[0], query), FollowEntries(query, cursor, EntryRequests(stores, limits));
            && SpellsDown(Newest(Before(s, cursor)), s, cursor, reading)
            && (|Newest(Before(s, cursor))| < |stores| ==> reading.next.None?)
  {
    forall k | 0 <= k < |stores| ensures ReadyToScan(query, stores[k]) {
      StoresReady(query, stores, ops, k);
    }
    var requests := EntryRequests(stores, limits);
    assert requests[0..] == requests;
    CursorsStayBelow(query, cursor, stores, requests, ops, stores[0].nextId, 0);
    ForkedScanExact(query, cursor, requests);
  }

  // ----- Conversations --------------------------------------------------------------------------

  ghost function ConversationRequests(stores: seq<Tables>, limits: seq<nat>): (r: seq<Request>)
    requires |stores| == |limits|
    ensures |r| == |stores|
    ensures forall i :: 0 <= i < |r| ==> r[i] == Request(stores[i].conversations.Keys, limits[i])
  {
    seq(|stores|, i requires 0 <= i < |stores| => Request(stores[i].conversations.Keys, limits[i]))
  }

  lemma RunKeepsConversations(t: Tables, ops: seq<Operation>)
    ensures t.conversations.Keys <= Run(t, ops).conversations.Keys
  {
    RunOnlyAdds(t, ops, 0);
    var later := Run(t, ops);
    forall c | c in t.conversations.Keys ensures c in later.conversations.Keys {
      assert c in t.conversations && OnlyAdds(t, later);
    }
  }

  lemma {:induction false} StoresGrow(stores: seq<Tables>, ops: seq<seq<Operation>>, i: nat, j: nat)
    requires i <= j < |stores| <= |ops| + 1
    requires forall k :: 1 <= k < |stores| ==> stores[k] == Run(stores[k - 1], ops[k - 1])
    ensures stores[i].conversations.Keys <= stores[j].conversations.Keys
  {
    if i < j {
      StoresGrow(stores, ops, i, j - 1);
      RunKeepsConversations(stores[j - 1], ops[j - 1]);
    }
  }

  /** Whatever is committed between the pages of `scanConversations`, following the cursors is an exact reading. */
  lemma ConversationScanExact(cursor: Option<Id>, stores: seq<Tables>, limits: seq<nat>, ops: seq<seq<Operation>>)
    requires 0 < |stores| == |limits| <= |ops| + 1
    requires forall k :: 1 <= k < |stores| ==> stores[k] == Run(stores[k - 1], ops[k - 1])
    requires forall k :: 0 <= k < |limits| ==> limits[k] > 0
    ensures Positive(ConversationRequests(stores, limits))
    ensures ExactReading(cursor, stores[0].conversations.Keys, stores[|stores| - 1].conversations.Keys,
                         FollowUp(cursor, ConversationRequests(stores, limits)))
  {
    var requests := ConversationRequests(stores, limits);
    forall i, j | 0 <= i <= j < |requests| ensures requests[i].matching <= requests[j].matching {
      StoresGrow(stores, ops, i, j);
    }
    AscendingScanExact(cursor, requests);
  }
}
