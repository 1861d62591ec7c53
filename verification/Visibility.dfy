/**
 Fork-aware history: which entries a conversation sees, and in which order the store walks them
 (packages/durable/src/memory-storage.ts, `visibleEntries` and `findLatestHeadMarker`).
 */
module Visibility {
  import opened Wrappers
  import opened SortedIds
  import opened DurableTables

  // ----- Ancestry -------------------------------------------------------------------------------

  /** The position at which a conversation was inserted. */
  function Rank(order: seq<Id>, id: Id): (r: nat)
    requires id in order
    ensures r < |order| && order[r] == id
  {
    var last := |order| - 1;
    if order[last] == id then last else Rank(order[..last], id)
  }

  /** Every fork names a conversation inserted before it. Storage trusts the Session for this. */
  ghost predicate Ancestry(t: Tables) {
    && (forall id :: id in t.order <==> id in t.conversations)
    && forall id <- t.conversations :: t.conversations[id].parent.Some? ==>
         var p := t.conversations[id].parent.value.conversationId;
         p in t.conversations && Rank(t.order, p) < Rank(t.order, id)
  }

  /** A fork's own entries are newer than the parent entry it forks at. The Session ensures this by minting ids. */
  ghost predicate ForkFloor(t: Tables) {
    forall e <- t.entries :: var c := t.entries[e].conversationId;
      c in t.conversations && t.conversations[c].parent.Some? ==> t.conversations[c].parent.value.at < e
  }

  /** What the Session guarantees about one write. */
  ghost predicate Genealogical(t: Tables, w: Write) {
    match w
    case ConversationWrite(v) =>
      v.parent.Some? ==>
        && v.parent.value.conversationId in t.conversations
        && forall e <- t.entries :: t.entries[e].conversationId == v.id ==> v.parent.value.at < e
    case EntryWrite(v) =>
      v.conversationId in t.conversations && t.conversations[v.conversationId].parent.Some? ==>
        t.conversations[v.conversationId].parent.value.at < v.id
    case _ => true
  }

  lemma ApplyKeepsForkFloor(t: Tables, w: Write)
    requires Consistent(t) && Admissible(t, w) && ForkFloor(t) && Genealogical(t, w)
    ensures ForkFloor(Apply(t, w))
  {
    var t' := Apply(t, w);
    assert w.ConversationWrite? ==> !Holds(t, ConversationTable, w.Id());
    forall e | e in t'.entries && t'.entries[e].conversationId in t'.conversations
               && t'.conversations[t'.entries[e].conversationId].parent.Some?
      ensures t'.conversations[t'.entries[e].conversationId].parent.value.at < e
    {
      assert !w.EntryWrite? ==> e in t.entries && t'.entries[e] == t.entries[e];
    }
  }

  lemma RanksKept(t: Tables, v: Conversation)
    requires (forall id :: id in t.order <==> id in t.conversations) && v.id !in t.order
    ensures forall id :: id in t.conversations ==>
      id in t.order + [v.id] && Rank(t.order + [v.id], id) == Rank(t.order, id)
    ensures v.id in t.order + [v.id] && Rank(t.order + [v.id], v.id) == |t.order|
  {
    assert (t.order + [v.id])[..|t.order|] == t.order;
  }

  /** Because conversations are never rewritten, their ranks never change and ancestry survives every commit. */
  lemma ApplyKeepsAncestry(t: Tables, w: Write)
    requires Consistent(t) && Admissible(t, w) && Ancestry(t) && Genealogical(t, w)
    ensures Ancestry(Apply(t, w))
  {
    if w.ConversationWrite? {
      var v, t' := w.conversation, Apply(t, w);
      assert !Holds(t, ConversationTable, v.id);
      RanksKept(t, v);
      forall id | id in t'.conversations && t'.conversations[id].parent.Some?
        ensures t'.conversations[id].parent.value.conversationId in t'.conversations
             && Rank(t'.order, t'.conversations[id].parent.value.conversationId) < Rank(t'.order, id)
      {
        if id != v.id {
          assert t'.conversations[id] == t.conversations[id];
        }
      }
    }
  }

  lemma ApplyKeepsBoth(t: Tables, w: Write)
    requires Consistent(t) && Admissible(t, w) && Ancestry(t) && ForkFloor(t) && Genealogical(t, w)
    ensures Consistent(Apply(t, w)) && Ancestry(Apply(t, w)) && ForkFloor(Apply(t, w))
  {
    ApplyKeepsConsistent(t, w);
    ApplyKeepsAncestry(t, w);
    ApplyKeepsForkFloor(t, w);
  }

  ghost predicate GenealogicalBatch(t: Tables, writes: seq<Write>) {
    forall i :: 0 <= i < |writes| ==> Genealogical(ApplyAll(t, writes[..i]), writes[i])
  }

  lemma CommitKeepsAncestry(t: Tables, writes: seq<Write>, k: nat)
    requires k <= |writes|
    requires Consistent(t) && Acceptable(t, writes) && Ancestry(t) && ForkFloor(t) && GenealogicalBatch(t, writes)
    ensures Ancestry(ApplyAll(t, writes[..k])) && ForkFloor(ApplyAll(t, writes[..k]))
    ensures Consistent(ApplyAll(t, writes[..k]))
  {
    var good := (u: Tables) => Consistent(u) && Ancestry(u) && ForkFloor(u);
    forall i | 0 <= i < |writes| && good(ApplyAll(t, writes[..i]))
      ensures good(Apply(ApplyAll(t, writes[..i]), writes[i]))
    {
      NextWrite(t, writes, i);
      ApplyKeepsBoth(ApplyAll(t, writes[..i]), writes[i]);
    }
    BatchInduction(good, t, writes, k);
  }

  lemma NextWrite(t: Tables, writes: seq<Write>, k: nat)
    requires k < |writes| && Acceptable(t, writes) && GenealogicalBatch(t, writes)
    ensures Admissible(ApplyAll(t, writes[..k]), writes[k]) && Genealogical(ApplyAll(t, writes[..k]), writes[k])
    ensures ApplyAll(t, writes[..k + 1]) == Apply(ApplyAll(t, writes[..k]), writes[k])
  {
    assert writes[..k + 1][..k] == writes[..k];
  }

  /** Every commit of a run that is accepted is one the Session could make. */
  ghost predicate GenealogicalRun(t: Tables, ops: seq<Operation>) {
    forall n :: 0 <= n < |ops| && ops[n].Commit? && Acceptable(Run(t, ops[..n]), ops[n].writes) ==>
      GenealogicalBatch(Run(t, ops[..n]), ops[n].writes)
  }

  lemma CountersKeepAncestry(t: Tables, t': Tables)
    requires Ancestry(t) && ForkFloor(t) && SameRecords(t, t')
    ensures Ancestry(t') && ForkFloor(t')
  {
  }

  lemma BatchKeepsAncestry(t: Tables, writes: seq<Write>)
    requires Consistent(t) && Acceptable(t, writes) && Ancestry(t) && ForkFloor(t) && GenealogicalBatch(t, writes)
    ensures Ancestry(ApplyAll(t, writes)) && ForkFloor(ApplyAll(t, writes))
  {
    CommitKeepsAncestry(t, writes, |writes|);
    assert writes[..|writes|] == writes;
  }

  /** What an operation makes of the tables before their counters are raised. */
  ghost function Written(t: Tables, op: Operation): Tables {
    if op.Commit? && Acceptable(t, op.writes) then ApplyAll(t, op.writes) else t
  }

  lemma WrittenIsPerformed(t: Tables, op: Operation)
    ensures SameRecords(Written(t, op), Perform(t, op))
  {
  }

  lemma PerformKeepsAncestry(t: Tables, op: Operation)
    requires Consistent(t) && Ancestry(t) && ForkFloor(t)
    requires op.Commit? && Acceptable(t, op.writes) ==> GenealogicalBatch(t, op.writes)
    ensures Ancestry(Perform(t, op)) && ForkFloor(Perform(t, op))
  {
    if op.Commit? && Acceptable(t, op.writes) {
      BatchKeepsAncestry(t, op.writes);
    }
    WrittenIsPerformed(t, op);
    CountersKeepAncestry(Written(t, op), Perform(t, op));
  }

  lemma RunBefore(t: Tables, ops: seq<Operation>)
    requires ops != [] && GenealogicalRun(t, ops)
    ensures GenealogicalRun(t, ops[..|ops| - 1])
    ensures var before, op := Run(t, ops[..|ops| - 1]), ops[|ops| - 1];
      op.Commit? && Acceptable(before, op.writes) ==> GenealogicalBatch(before, op.writes)
  {
    var last := |ops| - 1;
    assert forall n :: 0 <= n < last ==> ops[..last][..n] == ops[..n] && ops[..last][n] == ops[n];
  }

  /** Ancestry and the fork floor hold after any run of commits that the Session could make. */
  lemma {:induction false} RunKeepsAncestry(t: Tables, ops: seq<Operation>)
    requires Consistent(t) && Ancestry(t) && ForkFloor(t) && GenealogicalRun(t, ops)
    ensures Consistent(Run(t, ops)) && Ancestry(Run(t, ops)) && ForkFloor(Run(t, ops))
  {
    RunKeepsConsistent(t, ops);
    if ops != [] {
      var last := |ops| - 1;
      RunBefore(t, ops);
      RunKeepsAncestry(t, ops[..last]);
      PerformKeepsAncestry(Run(t, ops[..last]), ops[last]);
    }
  }

  // ----- The visible set and the walk -----------------------------------------------------------

  predicate AtMost(id: Id, upper: Option<Id>) {
    upper.None? || id <= upper.value
  }

  predicate AtLeast(id: Id, lower: Option<Id>) {
    lower.None? || lower.value <= id
  }

  function Lower(a: Option<Id>, b: Id): Id {
    if a.Some? && a.value < b then a.value else b
  }

  ghost function OwnIds(t: Tables, c: Id): set<Id> {
    set e <- t.entries | t.entries[e].conversationId == c
  }

  ghost function OwnUpTo(t: Tables, c: Id, upper: Option<Id>): set<Id> {
    set e <- OwnIds(t, c) | AtMost(e, upper)
  }

  /**
   The reference: own entries up to the cutoff, and the parent's up to the smaller of the cutoff and the fork point.
   */
  ghost function Visible(t: Tables, c: Id, upper: Option<Id>): set<Id>
    requires Ancestry(t) && c in t.conversations
    decreases Rank(t.order, c)
  {
    OwnUpTo(t, c, upper) +
    match t.conversations[c].parent
    case None => {}
    case Some(p) => Visible(t, p.conversationId, Some(Lower(upper, p.at)))
  }

  /** The order in which the store visits visible entries. */
  ghost function Walk(t: Tables, c: Id, upper: Option<Id>): (ids: seq<Id>)
    requires Ancestry(t) && c in t.conversations
    ensures forall i :: 0 <= i < |ids| ==> ids[i] in t.entries && AtMost(ids[i], upper)
    decreases Rank(t.order, c)
  {
    var own := Newest(OwnUpTo(t, c, upper));
    NewestMembers(OwnUpTo(t, c, upper));
    own +
    match t.conversations[c].parent
    case None => []
    case Some(p) => Walk(t, p.conversationId, Some(Lower(upper, p.at)))
  }

  /** The walk visits every visible entry once, strictly newest first. */
  lemma {:induction false} WalkIsNewestVisible(t: Tables, c: Id, upper: Option<Id>)
    requires Ancestry(t) && ForkFloor(t) && c in t.conversations
    ensures EnumeratesDown(Walk(t, c, upper), Visible(t, c, upper))
    decreases Rank(t.order, c)
  {
    var parent := t.conversations[c].parent;
    if parent.Some? {
      var up := Some(Lower(upper, parent.value.at));
      WalkIsNewestVisible(t, parent.value.conversationId, up);
      var own, inherited := Newest(OwnUpTo(t, c, upper)), Walk(t, parent.value.conversationId, up);
      forall i | 0 <= i < |own| ensures own[i] > parent.value.at {
        assert own[i] in own;
        assert own[i] in OwnUpTo(t, c, upper);
      }
      forall i | 0 <= i < |inherited| ensures inherited[i] <= parent.value.at {
        assert AtMost(inherited[i], up);
      }
      assert forall i :: 0 <= i < |own + inherited| ==>
        (own + inherited)[i] == if i < |own| then own[i] else inherited[i - |own|];
    } else {
      assert Walk(t, c, upper) == Newest(OwnUpTo(t, c, upper));
    }
  }

  /** A cutoff only cuts: it hides exactly the entries above it. */
  lemma {:induction false} VisibleCut(t: Tables, c: Id, upper: Option<Id>, id: Id)
    requires Ancestry(t) && c in t.conversations
    ensures id in Visible(t, c, upper) <==> id in Visible(t, c, None) && AtMost(id, upper)
    decreases Rank(t.order, c)
  {
    var parent := t.conversations[c].parent;
    if parent.Some? {
      var p, at := parent.value.conversationId, parent.value.at;
      VisibleCut(t, p, Some(Lower(upper, at)), id);
      VisibleCut(t, p, Some(Lower(None, at)), id);
    }
  }

  /** A way up from conversation c on which every fork was made at entry e or later. */
  ghost predicate Lineage(t: Tables, c: Id, path: seq<Id>, e: Id) {
    && path != [] && path[0] == c
    && forall i :: 0 <= i < |path| - 1 ==>
         && path[i] in t.conversations && t.conversations[path[i]].parent.Some?
         && t.conversations[path[i]].parent.value.conversationId == path[i + 1]
         && e <= t.conversations[path[i]].parent.value.at
  }

  /** Entry e belongs to a conversation that such a way reaches. */
  ghost predicate Descends(t: Tables, c: Id, e: Id) {
    exists path :: Lineage(t, c, path, e) && e in t.entries && t.entries[e].conversationId == path[|path| - 1]
  }

  lemma DescendsOneStep(t: Tables, c: Id, e: Id)
    requires c in t.conversations
    ensures Descends(t, c, e) <==>
      (e in t.entries && t.entries[e].conversationId == c)
      || (t.conversations[c].parent.Some? && e <= t.conversations[c].parent.value.at
          && Descends(t, t.conversations[c].parent.value.conversationId, e))
  {
    if e in t.entries && t.entries[e].conversationId == c {
      assert Lineage(t, c, [c], e);
    }
    var parent := t.conversations[c].parent;
    if parent.Some? && e <= parent.value.at && Descends(t, parent.value.conversationId, e) {
      var path :| Lineage(t, parent.value.conversationId, path, e) && e in t.entries
                  && t.entries[e].conversationId == path[|path| - 1];
      assert Lineage(t, c, [c] + path, e);
    }
    if Descends(t, c, e) {
      var path :| Lineage(t, c, path, e) && e in t.entries && t.entries[e].conversationId == path[|path| - 1];
      if |path| > 1 {
        assert path[0] == c && path[1] == parent.value.conversationId;
        assert Lineage(t, parent.value.conversationId, path[1..], e);
      }
    }
  }

  /**
   What a conversation sees: the entries at or below the cutoff of itself and of every conversation it descends from, as
   far as each fork on the way was made at that entry or later.
   */
  lemma {:induction false} VisibleByLineage(t: Tables, c: Id, upper: Option<Id>, e: Id)
    requires Ancestry(t) && c in t.conversations
    ensures e in Visible(t, c, upper) <==> (upper.None? || e <= upper.value) && Descends(t, c, e)
    decreases Rank(t.order, c)
  {
    DescendsOneStep(t, c, e);
    var parent := t.conversations[c].parent;
    if parent.Some? {
      VisibleByLineage(t, parent.value.conversationId, Some(Lower(upper, parent.value.at)), e);
    }
  }

  // ----- The latest head marker -----------------------------------------------------------------

  /** The first entry of a walk that carries a head. */
  ghost function FirstHead(t: Tables, ids: seq<Id>): (h: Option<Id>)
    requires forall i :: 0 <= i < |ids| ==> ids[i] in t.entries
    ensures h.Some? ==> h.value in ids && h.value in t.entries && t.entries[h.value].head.Some?
  {
    if ids == [] then None
    else if t.entries[ids[0]].head.Some? then Some(ids[0])
    else FirstHead(t, ids[1..])
  }

  lemma {:induction false} FirstHeadAppend(t: Tables, a: seq<Id>, b: seq<Id>)
    requires forall i :: 0 <= i < |a| ==> a[i] in t.entries
    requires forall i :: 0 <= i < |b| ==> b[i] in t.entries
    ensures FirstHead(t, a + b) == if FirstHead(t, a).Some? then FirstHead(t, a) else FirstHead(t, b)
  {
    if a == [] {
      assert a + b == b;
    } else {
      assert (a + b)[1..] == a[1..] + b;
      FirstHeadAppend(t, a[1..], b);
    }
  }

  /** In a newest-first list the first head is the greatest one. */
  lemma {:induction false} FirstHeadIsGreatest(t: Tables, ids: seq<Id>)
    requires Descending(ids) && forall i :: 0 <= i < |ids| ==> ids[i] in t.entries
    ensures match FirstHead(t, ids)
            case None => forall id <- ids :: t.entries[id].head.None?
            case Some(h) => h in ids && t.entries[h].head.Some?
                            && forall id <- ids :: t.entries[id].head.Some? ==> id <= h
  {
    if ids != [] {
      assert ids == [ids[0]] + ids[1..];
      FirstHeadIsGreatest(t, ids[1..]);
    }
  }

  /** With forks above their floor the marker is the newest visible entry that carries a head. */
  lemma FirstHeadIsNewestVisibleHead(t: Tables, c: Id, upper: Option<Id>)
    requires Ancestry(t) && ForkFloor(t) && c in t.conversations
    ensures match FirstHead(t, Walk(t, c, upper))
            case None => forall e <- Visible(t, c, upper) :: e in t.entries && t.entries[e].head.None?
            case Some(h) =>
              && h in Visible(t, c, upper) && h in t.entries && t.entries[h].head.Some?
              && forall e <- Visible(t, c, upper) :: e in t.entries && (t.entries[e].head.Some? ==> e <= h)
  {
    WalkIsNewestVisible(t, c, upper);
    FirstHeadIsGreatest(t, Walk(t, c, upper));
  }
}
