/**
 The in-memory durable store of packages/durable/src/memory-storage.ts. Its secondary indexes are sorted
 lists and nested maps that every commit edits; `Valid` says that each of them equals a filter of the
 primary tables, and every read is proved against the tables alone.
 */
module MemoryStorages {
  import opened Wrappers
  import opened SortedIds
  import opened DurableTables
  import opened Visibility
  import opened Paging

  // ----- What the indexes must contain ----------------------------------------------------------

  function Listed(index: map<Id, seq<Id>>, key: Id): seq<Id> {
    if key in index then index[key] else []
  }

  ghost function EntriesOf(entries: map<Id, Entry>, c: Id): set<Id> {
    set e <- entries | entries[e].conversationId == c
  }

  ghost function HeadsOf(entries: map<Id, Entry>, c: Id): set<Id> {
    set e <- entries | entries[e].conversationId == c && entries[e].head.Some?
  }

  ghost predicate EntryIndexed(entries: map<Id, Entry>, index: map<Id, seq<Id>>) {
    forall c :: Enumerates(Listed(index, c), EntriesOf(entries, c))
  }

  ghost predicate HeadsIndexed(entries: map<Id, Entry>, index: map<Id, seq<Id>>) {
    forall c :: Enumerates(Listed(index, c), HeadsOf(entries, c))
  }

  ghost function TasksWith(tasks: map<Id, Task>, status: TaskStatus): set<Id> {
    set k <- tasks | tasks[k].status == status
  }

  ghost predicate TasksIndexed(tasks: map<Id, Task>, ids: seq<Id>, byStatus: map<TaskStatus, seq<Id>>) {
    Enumerates(ids, tasks.Keys) && StatusIndexed(tasks, byStatus)
  }

  ghost predicate StatusIndexed(tasks: map<Id, Task>, byStatus: map<TaskStatus, seq<Id>>) {
    forall s: TaskStatus :: s in byStatus && Enumerates(byStatus[s], TasksWith(tasks, s))
  }

  /** The nested request map holds the pairs of `requests`, and no empty inner map. */
  ghost predicate RequestsNested(requests: map<(Id, string), Id>, nested: map<Id, map<string, Id>>) {
    && (forall key :: key in requests <==> key.0 in nested && key.1 in nested[key.0])
    && (forall key <- requests :: nested[key.0][key.1] == requests[key])
    && (forall c <- nested :: nested[c] != map[])
  }

  // ----- What the scans must return -------------------------------------------------------------

  datatype TaskQuery = TaskQuery(conversationId: Option<Id>, kind: Option<string>, status: Option<TaskStatus>,
                                 abortRequested: Option<bool>, background: Option<bool>)

  predicate MatchesTask(query: TaskQuery, task: Task) {
    && (query.conversationId.Some? ==> task.conversationId == query.conversationId.value)
    && (query.kind.Some? ==> task.kind == query.kind.value)
    && (query.status.Some? ==> task.status == query.status.value)
    && (query.abortRequested.Some? ==> task.abortRequested == query.abortRequested.value)
    && (query.background.Some? ==> task.background == query.background.value)
  }

  ghost function MatchingTasks(tasks: map<Id, Task>, query: TaskQuery): set<Id> {
    set k <- tasks | MatchesTask(query, tasks[k])
  }

  function Records<V>(table: map<Id, V>, ids: seq<Id>): seq<V>
    requires forall i :: 0 <= i < |ids| ==> ids[i] in table
  {
    seq(|ids|, i requires 0 <= i < |ids| => table[ids[i]])
  }

  /** The records of one page of `ids`; a page of limit 0 over a nonempty list has no last item to continue after. */
  function RecordPage<V>(table: map<Id, V>, ids: seq<Id>, limit: nat): Result<Page<V>, StorageError>
    requires forall i :: 0 <= i < |ids| ==> ids[i] in table
  {
    if limit == 0 && ids != [] then Err(NoLastItem)
    else Ok(Page(Records(table, PageOf(ids, limit).items), PageOf(ids, limit).next))
  }

  /** A page holds the records of the first ids, in order, and its cursor is the last of them if more are left. */
  lemma PageHolds<V>(table: map<Id, V>, ids: seq<Id>, limit: nat)
    requires forall i :: 0 <= i < |ids| ==> ids[i] in table
    requires Ascending(ids) && RecordPage(table, ids, limit).Ok?
    ensures var page := RecordPage(table, ids, limit).value;
      && |page.items| == (if limit < |ids| then limit else |ids|)
      && (forall i :: 0 <= i < |page.items| ==> page.items[i] == table[ids[i]])
      && (page.next.Some? <==> limit < |ids|)
      && (forall i :: |page.items| <= i < |ids| ==> page.next.Some? && page.next.value < ids[i])
  {
    if limit < |ids| {
      assert PageOf(ids, limit).next == Some(ids[limit - 1]);
    }
  }

  /** `page`: `values` are the records of `ids`, each keyed by its own id. */
  method MakePage<V>(values: seq<V>, idOf: V -> Id, limit: nat, ghost table: map<Id, V>, ghost ids: seq<Id>)
    returns (r: Result<Page<V>, StorageError>)
    requires forall i :: 0 <= i < |ids| ==> ids[i] in table && idOf(table[ids[i]]) == ids[i]
    requires values == Records(table, ids)
    ensures r == RecordPage(table, ids, limit)
  {
    if |values| <= limit { return Ok(Page(values, None)); }
    var items := values[..limit];
    if |items| == 0 { return Err(NoLastItem); }
    assert items == Records(table, ids[..limit]);
    return Ok(Page(items, Some(idOf(items[|items| - 1]))));
  }

  /** To fill a page it is enough to look at one id more than the page holds. */
  lemma PageOfPrefix<V>(table: map<Id, V>, ids: seq<Id>, prefix: seq<Id>, limit: nat)
    requires forall i :: 0 <= i < |ids| ==> ids[i] in table
    requires prefix <= ids && (prefix == ids || |prefix| == limit + 1)
    ensures RecordPage(table, prefix, limit) == RecordPage(table, ids, limit)
  {
    if prefix != ids && limit > 0 {
      assert prefix[..limit] == ids[..limit];
    }
  }

  function Backwards(ids: seq<Id>): seq<Id> {
    if ids == [] then [] else [ids[|ids| - 1]] + Backwards(ids[..|ids| - 1])
  }

  lemma {:induction false} BackwardsDescends(ids: seq<Id>)
    requires Ascending(ids)
    ensures Descending(Backwards(ids)) && forall x :: x in Backwards(ids) <==> x in ids
  {
    if ids != [] {
      var before, last := ids[..|ids| - 1], ids[|ids| - 1];
      BackwardsDescends(before);
      assert ids == before + [last];
      var rest := Backwards(before);
      forall i | 0 <= i < |rest| ensures rest[i] < last {
        assert rest[i] in rest;
      }
    }
  }

  lemma {:induction false} KeepAppend(a: seq<Id>, b: seq<Id>, lower: Option<Id>)
    ensures Keep(a + b, lower) == Keep(a, lower) + Keep(b, lower)
  {
    if a == [] {
      assert a + b == b;
    } else {
      assert (a + b)[1..] == a[1..] + b;
      KeepAppend(a[1..], b, lower);
    }
  }

  lemma {:induction false} KeepNone(ids: seq<Id>, lower: Option<Id>)
    requires forall i :: 0 <= i < |ids| ==> !AtLeast(ids[i], lower)
    ensures Keep(ids, lower) == []
  {
    if ids != [] {
      KeepNone(ids[1..], lower);
    }
  }

  function FilterTasks(tasks: map<Id, Task>, query: TaskQuery, ids: seq<Id>): seq<Id>
    requires forall i :: 0 <= i < |ids| ==> ids[i] in tasks
  {
    if ids == [] then []
    else (if MatchesTask(query, tasks[ids[0]]) then [ids[0]] else []) + FilterTasks(tasks, query, ids[1..])
  }

  lemma {:induction false} FilterTasksSelects(tasks: map<Id, Task>, query: TaskQuery, ids: seq<Id>)
    requires Ascending(ids) && forall i :: 0 <= i < |ids| ==> ids[i] in tasks
    ensures Ascending(FilterTasks(tasks, query, ids))
    ensures forall x :: x in FilterTasks(tasks, query, ids) <==> x in ids && x in tasks && MatchesTask(query, tasks[x])
  {
    if ids != [] {
      FilterTasksSelects(tasks, query, ids[1..]);
      assert ids == [ids[0]] + ids[1..];
      var rest := FilterTasks(tasks, query, ids[1..]);
      forall i | 0 <= i < |rest| ensures ids[0] < rest[i] {
        assert rest[i] in rest;
      }
    }
  }

  // ----- The loops of the scans -----------------------------------------------------------------

  /** Where a scan that continues after `cursor` starts: the ids from there on are those after the cursor. */
  method StartAfter(ids: seq<Id>, ghost s: set<Id>, cursor: Option<Id>) returns (start: nat)
    requires Enumerates(ids, s)
    ensures start <= |ids| && ids[start..] == Oldest(After(s, cursor))
  {
    if cursor.None? {
      start := 0;
    } else {
      start := UpperBound(ids, cursor.value);
      assert ids == ids[..start] + ids[start..];
    }
    OldestIs(ids[start..], After(s, cursor));
  }

  /** Collects matching tasks from `start` on, until there is one more than the limit. */
  method CollectTasks(tasks: map<Id, Task>, query: TaskQuery, ids: seq<Id>, start: nat, limit: nat)
    returns (values: seq<Task>, ghost kept: seq<Id>)
    requires start <= |ids| && forall i :: 0 <= i < |ids| ==> ids[i] in tasks
    ensures forall i :: 0 <= i < |kept| ==> kept[i] in tasks
    ensures values == Records(tasks, kept)
    ensures var wanted := FilterTasks(tasks, query, ids[start..]);
            kept <= wanted && (kept == wanted || |kept| == limit + 1)
  {
    ghost var wanted := FilterTasks(tasks, query, ids[start..]);
    values, kept := [], [];
    var index := start;
    while index < |ids| && |values| <= limit
      invariant start <= index <= |ids|
      invariant wanted == kept + FilterTasks(tasks, query, ids[index..])
      invariant |kept| <= limit + 1
      invariant forall i :: 0 <= i < |kept| ==> kept[i] in tasks
      invariant values == Records(tasks, kept)
    {
      var value := tasks[ids[index]];
      assert ids[index..][1..] == ids[index + 1..];
      if MatchesTask(query, value) {
        values := values + [value];
        kept := kept + [ids[index]];
      }
      index := index + 1;
    }
  }

  /** The newest-first range of an entry index up to a cutoff. */
  lemma OwnBackwards(t: Tables, ids: seq<Id>, end: nat, c: Id, upper: Option<Id>)
    requires Enumerates(ids, EntriesOf(t.entries, c)) && end <= |ids|
    requires forall i :: 0 <= i < |ids| ==> (i < end <==> AtMost(ids[i], upper))
    ensures Backwards(ids[..end]) == Newest(OwnUpTo(t, c, upper))
  {
    BackwardsDescends(ids[..end]);
    assert ids == ids[..end] + ids[end..];
    NewestIs(Backwards(ids[..end]), OwnUpTo(t, c, upper));
  }

  lemma KeepNoneBelow(ids: seq<Id>, lower: Option<Id>)
    requires ids != [] && Ascending(ids) && !AtLeast(ids[|ids| - 1], lower)
    ensures Keep(Backwards(ids), lower) == []
  {
    BackwardsDescends(ids);
    forall i | 0 <= i < |Backwards(ids)| ensures !AtLeast(Backwards(ids)[i], lower) {
      assert Backwards(ids)[i] in ids;
    }
    KeepNone(Backwards(ids), lower);
  }

  lemma {:induction false} KeepWithin(ids: seq<Id>, lower: Option<Id>, s: set<Id>)
    requires forall i :: 0 <= i < |ids| ==> ids[i] in s
    ensures forall i :: 0 <= i < |Keep(ids, lower)| ==> Keep(ids, lower)[i] in s
  {
    if ids != [] {
      KeepWithin(ids[1..], lower, s);
    }
  }

  /** How many ids of the list are at or below the cutoff. */
  method CountUpTo(ids: seq<Id>, upper: Option<Id>) returns (end: nat)
    requires Ascending(ids)
    ensures end <= |ids| && forall i :: 0 <= i < |ids| ==> (i < end <==> AtMost(ids[i], upper))
  {
    if upper.None? { return |ids|; }
    end := UpperBound(ids, upper.value);
  }

  /**
   Visits the first `end` ids downwards as long as they are not below `lower`, until `limit + 1` entries are visible.
   */
  /** The next id from the end is the next one kept. */
  lemma KeepNext(ids: seq<Id>, k: nat, lower: Option<Id>, kept: seq<Id>, all: seq<Id>)
    requires k < |ids| && AtLeast(ids[k], lower) && all == kept + Keep(Backwards(ids[..k + 1]), lower)
    ensures all == (kept + [ids[k]]) + Keep(Backwards(ids[..k]), lower)
  {
    assert ids[..k + 1][..k] == ids[..k];
    assert Backwards(ids[..k + 1]) == [ids[k]] + Backwards(ids[..k]);
  }

  method VisitOwn(entries: map<Id, Entry>, ids: seq<Id>, end: nat, lower: Option<Id>, limit: nat,
                  visible: seq<Entry>, ghost kept: seq<Id>)
    returns (visible': seq<Entry>, ghost kept': seq<Id>)
    requires Ascending(ids) && end <= |ids| && |kept| <= limit
    requires forall i :: 0 <= i < |ids| ==> ids[i] in entries
    requires forall i :: 0 <= i < |kept| ==> kept[i] in entries
    requires visible == Records(entries, kept)
    ensures forall i :: 0 <= i < |kept'| ==> kept'[i] in entries
    ensures visible' == Records(entries, kept') && |kept'| <= limit + 1
    ensures kept' <= kept + Keep(Backwards(ids[..end]), lower)
    ensures |kept'| <= limit ==> kept' == kept + Keep(Backwards(ids[..end]), lower)
  {
    visible', kept' := visible, kept;
    ghost var own := Keep(Backwards(ids[..end]), lower);
    var index: int := end - 1;
    while index >= 0
      invariant -1 <= index < end
      invariant kept + own == kept' + Keep(Backwards(ids[..index + 1]), lower)
      invariant forall i :: 0 <= i < |kept'| ==> kept'[i] in entries
      invariant visible' == Records(entries, kept') && |kept'| <= limit
    {
      var id := ids[index];
      if !AtLeast(id, lower) {
        KeepNoneBelow(ids[..index + 1], lower);
        return;
      }
      KeepNext(ids, index, lower, kept', kept + own);
      visible' := visible' + [entries[id]];
      kept' := kept' + [id];
      if |visible'| > limit { return; }
      index := index - 1;
    }
  }

  /** Where a walk up the ancestors stands: the conversation to visit next, and the cutoff for its entries. */
  datatype Position = Position(conversationId: Id, upper: Option<Id>)

  class MemoryStorage {
    var conversations: map<Id, Conversation>
    /** The iteration order of `conversations`. */
    ghost var order: seq<Id>
    var conversationIds: seq<Id>
    var entries: map<Id, Entry>
    var entryIds: map<Id, seq<Id>>
    var headEntryIds: map<Id, seq<Id>>
    var entryCommitSeqs: map<Id, nat>
    var tasks: map<Id, Task>
    var taskIds: seq<Id>
    var taskIdsByStatus: map<TaskStatus, seq<Id>>
    var inputs: map<Id, Input>
    var inputIdsByRequest: map<Id, map<string, Id>>
    /** The same pairs, flat. */
    ghost var requests: map<(Id, string), Id>
    var nextId: Id
    var nextSeq: nat
    var closed: bool

    ghost function View(): Tables
      reads this
    {
      Tables(conversations, order, entries, entryCommitSeqs, tasks, inputs, requests, nextId, nextSeq)
    }

    /** Every index agrees with its table. */
    ghost predicate Indexed()
      reads this
    {
      && Enumerates(conversationIds, conversations.Keys)
      && EntryIndexed(entries, entryIds) && HeadsIndexed(entries, headEntryIds)
      && TasksIndexed(tasks, taskIds, taskIdsByStatus)
      && RequestsNested(requests, inputIdsByRequest)
    }

    ghost predicate Valid()
      reads this
    {
      Consistent(View()) && Indexed()
    }

    constructor ()
      ensures Valid() && View() == EMPTY && !closed
    {
      conversations, order, conversationIds := map[], [], [];
      entries, entryIds, headEntryIds, entryCommitSeqs := map[], map[], map[], map[];
      tasks, taskIds, taskIdsByStatus := map[], [], map[Pending := [], Running := [], Terminal := []];
      inputs, inputIdsByRequest, requests := map[], map[], map[];
      nextId, nextSeq, closed := 2, 1, false;
      new;
      EmptyIsConsistent();
      forall s: TaskStatus ensures s in taskIdsByStatus && Enumerates(taskIdsByStatus[s], TasksWith(tasks, s)) {
        assert s == Pending || s == Running || s == Terminal;
      }
    }

    // ----- Writing ------------------------------------------------------------------------------

    function TableContaining(id: Id): (r: Option<TableName>)
      reads this
      ensures r.Some? ==> Holds(View(), r.value, id)
      ensures r.None? ==> forall table :: !Holds(View(), table, id)
    {
      if id in conversations then Some(ConversationTable)
      else if id in entries then Some(EntryTable)
      else if id in tasks then Some(TaskTable)
      else if id in inputs then Some(InputTable)
      else None
    }

    method CommitConversation(v: Conversation)
      requires Enumerates(conversationIds, conversations.Keys) && v.id !in conversations
      modifies `conversations, `order, `conversationIds
      ensures Enumerates(conversationIds, conversations.Keys)
      ensures conversations == old(conversations)[v.id := v] && order == old(order) + [v.id]
    {
      conversations, order := conversations[v.id := v], order + [v.id];
      conversationIds := InsertSorted(conversationIds, v.id);
    }

    method CommitEntry(v: Entry, seqNumber: nat)
      requires EntryIndexed(entries, entryIds) && HeadsIndexed(entries, headEntryIds) && v.id !in entries
      modifies `entries, `entryCommitSeqs, `entryIds, `headEntryIds
      ensures EntryIndexed(entries, entryIds) && HeadsIndexed(entries, headEntryIds)
      ensures entries == old(entries)[v.id := v] && entryCommitSeqs == old(entryCommitSeqs)[v.id := seqNumber]
    {
      var c := v.conversationId;
      assert Enumerates(Listed(entryIds, c), EntriesOf(entries, c));
      assert Enumerates(Listed(headEntryIds, c), HeadsOf(entries, c));
      var ids := InsertSorted(Listed(entryIds, c), v.id);
      EntryIndexGrows(entries, entryIds, v, entryIds[c := ids]);
      entryIds := entryIds[c := ids];
      if v.head.Some? {
        var headIds := InsertSorted(Listed(headEntryIds, c), v.id);
        HeadIndexGrows(entries, headEntryIds, v, headEntryIds[c := headIds]);
        headEntryIds := headEntryIds[c := headIds];
      } else {
        HeadIndexGrows(entries, headEntryIds, v, headEntryIds);
      }
      entries := entries[v.id := v];
      entryCommitSeqs := entryCommitSeqs[v.id := seqNumber];
    }

    static lemma EntryIndexGrows(entries: map<Id, Entry>, index: map<Id, seq<Id>>, v: Entry, index': map<Id, seq<Id>>)
      requires EntryIndexed(entries, index) && v.id !in entries
      requires forall c :: c != v.conversationId ==> Listed(index', c) == Listed(index, c)
      requires Ascending(Listed(index', v.conversationId))
      requires forall x :: x in Listed(index', v.conversationId) <==> x in Listed(index, v.conversationId) || x == v.id
      ensures EntryIndexed(entries[v.id := v], index')
    {
      forall c ensures Enumerates(Listed(index', c), EntriesOf(entries[v.id := v], c)) {
        assert Enumerates(Listed(index, c), EntriesOf(entries, c));
      }
    }

    static lemma HeadIndexGrows(entries: map<Id, Entry>, index: map<Id, seq<Id>>, v: Entry, index': map<Id, seq<Id>>)
      requires HeadsIndexed(entries, index) && v.id !in entries
      requires forall c :: c != v.conversationId ==> Listed(index', c) == Listed(index, c)
      requires Ascending(Listed(index', v.conversationId))
      requires forall x :: x in Listed(index', v.conversationId)
                      <==> x in Listed(index, v.conversationId) || (x == v.id && v.head.Some?)
      ensures HeadsIndexed(entries[v.id := v], index')
    {
      forall c ensures Enumerates(Listed(index', c), HeadsOf(entries[v.id := v], c)) {
        assert Enumerates(Listed(index, c), HeadsOf(entries, c));
      }
    }

    method CommitTask(v: Task)
      requires TasksIndexed(tasks, taskIds, taskIdsByStatus)
      modifies `tasks, `taskIds, `taskIdsByStatus
      ensures TasksIndexed(tasks, taskIds, taskIdsByStatus)
      ensures tasks == old(tasks)[v.id := v]
    {
      var byStatus := taskIdsByStatus;
      assert Enumerates(byStatus[v.status], TasksWith(tasks, v.status));
      if v.id !in tasks {
        taskIds := InsertSorted(taskIds, v.id);
        var listed := InsertSorted(byStatus[v.status], v.id);
        taskIdsByStatus := byStatus[v.status := listed];
      } else if tasks[v.id].status != v.status {
        var previous := tasks[v.id].status;
        assert Enumerates(byStatus[previous], TasksWith(tasks, previous));
        var without := RemoveSorted(byStatus[previous], v.id);
        var listed := InsertSorted(byStatus[v.status], v.id);
        taskIdsByStatus := byStatus[previous := without][v.status := listed];
      }
      StatusIndexMoves(tasks, byStatus, v, taskIdsByStatus);
      tasks := tasks[v.id := v];
    }

    /** A task sits in the list of its own status and in no other. */
    static lemma StatusIndexMoves(tasks: map<Id, Task>, byStatus: map<TaskStatus, seq<Id>>, v: Task,
                                  byStatus': map<TaskStatus, seq<Id>>)
      requires StatusIndexed(tasks, byStatus)
      requires if v.id in tasks && tasks[v.id].status == v.status then byStatus' == byStatus
               else
                 && (forall s: TaskStatus :: s in byStatus' && Ascending(byStatus'[s]))
                 && (forall s: TaskStatus :: s != v.status && (v.id !in tasks || s != tasks[v.id].status) ==>
                     byStatus'[s] == byStatus[s])
                 && (forall x :: x in byStatus'[v.status] <==> x in byStatus[v.status] || x == v.id)
                 && (v.id in tasks ==>
                       var s := tasks[v.id].status;
                       forall x :: x in byStatus'[s] <==> x in byStatus[s] && x != v.id)
      ensures StatusIndexed(tasks[v.id := v], byStatus')
    {
      var tasks' := tasks[v.id := v];
      forall s: TaskStatus ensures s in byStatus' && Enumerates(byStatus'[s], TasksWith(tasks', s)) {
        assert Enumerates(byStatus[s], TasksWith(tasks, s));
      }
    }

    method CommitInput(v: Input)
      requires RequestsNested(requests, inputIdsByRequest)
      modifies `inputs, `inputIdsByRequest, `requests
      ensures RequestsNested(requests, inputIdsByRequest)
      ensures inputs == old(inputs)[v.id := v]
      ensures requests == Reindexed(old(requests), Lookup(old(inputs), v.id), v)
    {
      if v.id in inputs && inputs[v.id].requestId.Some? {
        ForgetRequest(inputs[v.id], v.id);
      }
      inputs := inputs[v.id := v];
      if v.requestId.Some? {
        RememberRequest(v.conversationId, v.requestId.value, v.id);
      }
    }

    method RememberRequest(c: Id, requestId: string, id: Id)
      requires RequestsNested(requests, inputIdsByRequest)
      modifies `inputIdsByRequest, `requests
      ensures RequestsNested(requests, inputIdsByRequest)
      ensures requests == old(requests)[(c, requestId) := id]
    {
      var inner := if c in inputIdsByRequest then inputIdsByRequest[c] else map[];
      var inner' := inner[requestId := id];
      assert requestId in inner';
      inputIdsByRequest := inputIdsByRequest[c := inner'];
      requests := requests[(c, requestId) := id];
    }

    method ForgetRequest(previous: Input, id: Id)
      requires RequestsNested(requests, inputIdsByRequest) && previous.requestId.Some?
      modifies `inputIdsByRequest, `requests
      ensures RequestsNested(requests, inputIdsByRequest)
      ensures var key := (previous.conversationId, previous.requestId.value);
              requests == if key in old(requests) && old(requests)[key] == id then old(requests) - {key}
                          else old(requests)
    {
      var c, requestId := previous.conversationId, previous.requestId.value;
      assert (c, requestId) in requests
          <==> (c, requestId).0 in inputIdsByRequest && (c, requestId).1 in inputIdsByRequest[c];
      if c in inputIdsByRequest && requestId in inputIdsByRequest[c] && inputIdsByRequest[c][requestId] == id {
        var left := inputIdsByRequest[c] - {requestId};
        inputIdsByRequest := if |left| == 0 then inputIdsByRequest - {c} else inputIdsByRequest[c := left];
        requests := requests - {(c, requestId)};
        assert |left| == 0 ==> forall r :: r !in left;
      }
    }

    /** Applies one write to the tables and to every index. */
    method CommitWrite(w: Write, seqNumber: nat)
      requires Indexed() && Admissible(View(), w) && seqNumber == nextSeq
      modifies this
      ensures Indexed() && View() == Apply(old(View()), w)
      ensures closed == old(closed) && nextSeq == old(nextSeq)
    {
      NewWhenImmutable(w);
      CommitRecord(w, seqNumber);
      nextId := if nextId < w.Id() + 1 then w.Id() + 1 else nextId;
    }

    method CommitRecord(w: Write, seqNumber: nat)
      requires Indexed() && seqNumber == nextSeq
      requires w.ConversationWrite? ==> w.Id() !in conversations
      requires w.EntryWrite? ==> w.Id() !in entries
      modifies this
      ensures Indexed() && View() == Apply(old(View()), w).(nextId := old(nextId))
      ensures closed == old(closed) && nextSeq == old(nextSeq) && nextId == old(nextId)
    {
      if w.Table().Immutable() {
        CommitNew(w, seqNumber);
      } else {
        CommitChange(w);
      }
    }

    method CommitNew(w: Write, seqNumber: nat)
      requires Indexed() && seqNumber == nextSeq && w.Table().Immutable()
      requires w.ConversationWrite? ==> w.Id() !in conversations
      requires w.EntryWrite? ==> w.Id() !in entries
      modifies `conversations, `order, `conversationIds, `entries, `entryCommitSeqs, `entryIds, `headEntryIds
      ensures Indexed() && View() == Apply(old(View()), w).(nextId := old(nextId))
    {
      match w {
        case ConversationWrite(v) => CommitConversation(v);
        case EntryWrite(v) => CommitEntry(v, seqNumber);
      }
    }

    method CommitChange(w: Write)
      requires Indexed() && !w.Table().Immutable()
      modifies `tasks, `taskIds, `taskIdsByStatus, `inputs, `inputIdsByRequest, `requests
      ensures Indexed() && View() == Apply(old(View()), w).(nextId := old(nextId))
    {
      match w {
        case TaskWrite(v) => CommitTask(v);
        case InputWrite(v) => CommitInput(v);
      }
    }

    lemma NewWhenImmutable(w: Write)
      requires Admissible(View(), w)
      ensures w.ConversationWrite? ==> w.Id() !in conversations
      ensures w.EntryWrite? ==> w.Id() !in entries
    {
      assert Holds(View(), w.Table(), w.Id()) ==> !w.Table().Immutable();
    }

    /**
     What is wrong with the k-th write of a batch, if anything, seen from the stored tables and the writes before it.
     */
    ghost predicate Explains(error: StorageError, writes: seq<Write>, k: nat)
      requires k < |writes|
      reads this
    {
      var w := writes[k];
      match error
      case IdTaken(id, owner) =>
        id == w.Id() && Holds(View(), owner, id) && (owner != w.Table() || owner.Immutable())
      case WrittenTwice(id) =>
        && id == w.Id() && w.Table().Immutable() && (forall table :: !Holds(View(), table, id))
        && exists j :: 0 <= j < k && writes[j].Id() == id
      case TwoRecordTypes(id) =>
        && id == w.Id() && !w.Table().Immutable()
        && exists j :: 0 <= j < k && writes[j].Id() == id && writes[j].Table() != w.Table()
      case _ => false
    }

    /**
     The check of one write: `existing` is the stored table of its id, `earlier` the table claimed by the writes before
     it.
     */
    static method CheckId(table: TableName, id: Id, existing: Option<TableName>, earlier: Option<TableName>)
      returns (r: Option<StorageError>)
      ensures r == if table.Immutable() then
                     if existing.Some? then Some(IdTaken(id, existing.value))
                     else if earlier.Some? then Some(WrittenTwice(id)) else None
                   else
                     if existing.Some? && existing.value != table then Some(IdTaken(id, existing.value))
                     else if earlier.Some? && earlier.value != table then Some(TwoRecordTypes(id)) else None
    {
      if table.Immutable() {
        if existing.Some? { return Some(IdTaken(id, existing.value)); }
        if earlier.Some? { return Some(WrittenTwice(id)); }
      } else {
        if existing.Some? && existing.value != table { return Some(IdTaken(id, existing.value)); }
        if earlier.Some? && earlier.value != table { return Some(TwoRecordTypes(id)); }
      }
      return None;
    }

    /** `claimed` records the table of every id among the first k writes. */
    static ghost predicate Claims(claimed: map<Id, TableName>, writes: seq<Write>, k: nat)
      requires k <= |writes|
    {
      && (forall id :: id in claimed <==> exists j :: 0 <= j < k && writes[j].Id() == id)
      && (forall j :: 0 <= j < k ==> claimed[writes[j].Id()] == writes[j].Table())
    }

    /**
     Accepts a batch before any write is applied, exactly when each of its writes would be admissible at its
     turn; otherwise reports the first write that would not.
     */
    method CheckImmutableIds(writes: seq<Write>) returns (r: Result<(), StorageError>)
      requires SeparateTables(View())
      ensures r.Ok? <==> Acceptable(View(), writes)
      ensures r.Err? ==>
        exists k :: 0 <= k < |writes| && Explains(r.error, writes, k) && Acceptable(View(), writes[..k])
    {
      var claimed: map<Id, TableName> := map[];
      for k := 0 to |writes|
        invariant Acceptable(View(), writes[..k])
        invariant Claims(claimed, writes, k)
      {
        var table, id := writes[k].Table(), writes[k].Id();
        var existing := TableContaining(id);
        var error := CheckId(table, id, existing, Lookup(claimed, id));
        HeldAtTurn(writes, k, claimed);
        if error.Some? {
          Rejected(writes, k, claimed, error.value);
          return Err(error.value);
        }
        AdmissibleNow(writes, k, claimed);
        AcceptableNext(View(), writes, k);
        claimed := claimed[id := table];
        assert Claims(claimed, writes, k + 1);
      }
      assert writes[..|writes|] == writes;
      return Ok(());
    }

    lemma AdmissibleNow(writes: seq<Write>, k: nat, claimed: map<Id, TableName>)
      requires SeparateTables(View()) && k < |writes| && Claims(claimed, writes, k)
      requires var w := writes[k];
               if w.Table().Immutable() then TableContaining(w.Id()).None? && w.Id() !in claimed
               else
                 && (TableContaining(w.Id()).Some? ==> TableContaining(w.Id()).value == w.Table())
                 && (w.Id() in claimed ==> claimed[w.Id()] == w.Table())
      ensures Admissible(ApplyAll(View(), writes[..k]), writes[k])
    {
      HeldAtTurn(writes, k, claimed);
    }

    lemma Rejected(writes: seq<Write>, k: nat, claimed: map<Id, TableName>, error: StorageError)
      requires SeparateTables(View()) && k < |writes| && Claims(claimed, writes, k)
      requires var w := writes[k];
               var existing, earlier := TableContaining(w.Id()), Lookup(claimed, w.Id());
               if w.Table().Immutable() then
                 if existing.Some? then error == IdTaken(w.Id(), existing.value)
                 else earlier.Some? && error == WrittenTwice(w.Id())
               else
                 if existing.Some? && existing.value != w.Table() then error == IdTaken(w.Id(), existing.value)
                 else earlier.Some? && earlier.value != w.Table() && error == TwoRecordTypes(w.Id())
      ensures Explains(error, writes, k)
      ensures !Acceptable(View(), writes)
    {
      HeldAtTurn(writes, k, claimed);
      var w := writes[k];
      var held := ApplyAll(View(), writes[..k]);
      if error.IdTaken? {
        assert Holds(held, error.owner, w.Id());
      } else {
        assert Holds(held, claimed[w.Id()], w.Id());
      }
      assert !Admissible(held, w);
    }

    /** When its turn comes, a write meets its id in the tables that stored it before and in the one that claimed it. */
    lemma HeldAtTurn(writes: seq<Write>, k: nat, claimed: map<Id, TableName>)
      requires k < |writes| && Claims(claimed, writes, k)
      ensures forall table :: var id := writes[k].Id();
                Holds(ApplyAll(View(), writes[..k]), table, id)
                <==> Holds(View(), table, id) || (id in claimed && claimed[id] == table)
    {
      var id := writes[k].Id();
      forall table ensures Holds(ApplyAll(View(), writes[..k]), table, id)
                      <==> Holds(View(), table, id) || (id in claimed && claimed[id] == table)
      {
        HoldsAfter(View(), writes[..k], table, id);
        if id in claimed {
          var j :| 0 <= j < k && writes[j].Id() == id;
          assert writes[..k][j] in writes[..k];
        }
      }
    }

    static lemma AdmissibleStill(t: Tables, writes: seq<Write>, k: nat, i: nat)
      requires i <= k < |writes| && Acceptable(t, writes[..k]) && Admissible(ApplyAll(t, writes[..k]), writes[k])
      ensures Admissible(ApplyAll(t, writes[..k + 1][..i]), writes[..k + 1][i])
    {
      assert writes[..k + 1][..i] == writes[..i];
      if i < k {
        assert writes[..k][..i] == writes[..i];
      }
    }

    static lemma AcceptableNext(t: Tables, writes: seq<Write>, k: nat)
      requires k < |writes| && Acceptable(t, writes[..k]) && Admissible(ApplyAll(t, writes[..k]), writes[k])
      ensures Acceptable(t, writes[..k + 1])
    {
      var longer := writes[..k + 1];
      forall i | 0 <= i < |longer| ensures Admissible(ApplyAll(t, longer[..i]), longer[i]) {
        AdmissibleStill(t, writes, k, i);
      }
    }

    /**
     Commits a whole batch, or nothing at all. What was committed is what was written last under each id, and every
     entry of the batch carries the number that is returned.
     */
    method Commit(writes: seq<Write>) returns (r: Result<nat, StorageError>)
      requires Valid()
      modifies this
      ensures Valid() && closed == old(closed)
      ensures r.Ok? <==> !old(closed) && Acceptable(old(View()), writes)
      ensures r.Ok? ==> r.value == old(nextSeq) && View() == Perform(old(View()), DurableTables.Commit(writes))
      ensures r.Err? ==> View() == old(View()) && (r.error == Closed <==> old(closed))
      ensures r.Ok? <==> !old(closed) && forall k :: 0 <= k < |writes| ==> MayWrite(old(View()), writes, k)
      ensures r.Ok? ==> forall id: Id ::
        Stores(old(View()), writes, View(), id) && Numbers(old(View()), writes, View(), id, r.value)
      ensures r.Ok? ==> NextIdFits(old(nextId), writes, nextId) && nextSeq == old(nextSeq) + 1
    {
      AcceptableByIds(View(), writes);
      if closed { return Err(Closed); }
      var check := CheckImmutableIds(writes);
      if check.Err? { return Err(check.error); }
      var seqNumber := nextSeq;
      CommitAccepted(writes);
      Committed(old(View()), writes, View());
      return Ok(seqNumber);
    }

    /** What a committed batch leaves. */
    static lemma Committed(t: Tables, writes: seq<Write>, t': Tables)
      requires t' == ApplyAll(t, writes).(nextSeq := t.nextSeq + 1)
      ensures forall id: Id :: Stores(t, writes, t', id) && Numbers(t, writes, t', id, t.nextSeq)
      ensures NextIdFits(t.nextId, writes, t'.nextId)
    {
      forall id: Id ensures Stores(t, writes, t', id) && Numbers(t, writes, t', id, t.nextSeq) {
        BatchStores(t, writes, id);
        BatchNumbers(t, writes, id);
      }
      NextIdAfter(t, writes);
    }

    method CommitAccepted(writes: seq<Write>)
      requires Valid() && Acceptable(View(), writes)
      modifies this
      ensures Valid() && closed == old(closed)
      ensures View() == ApplyAll(old(View()), writes).(nextSeq := old(nextSeq) + 1)
    {
      ApplyAllKeepsConsistent(View(), writes);
      CommitAll(writes, nextSeq);
      AdvanceSeq();
    }

    method AdvanceSeq()
      requires Valid()
      modifies `nextSeq
      ensures Valid() && View() == old(View()).(nextSeq := old(nextSeq) + 1)
    {
      nextSeq := nextSeq + 1;
      CountersKeepConsistent(old(View()), View());
    }

    method CommitAll(writes: seq<Write>, seqNumber: nat)
      requires Indexed() && Acceptable(View(), writes) && seqNumber == nextSeq
      modifies this
      ensures Indexed() && View() == ApplyAll(old(View()), writes) && closed == old(closed)
    {
      ghost var before := View();
      assert writes[..0] == [];
      for k := 0 to |writes|
        invariant Indexed() && closed == old(closed) && nextSeq == seqNumber
        invariant View() == ApplyAll(before, writes[..k])
      {
        assert Admissible(ApplyAll(before, writes[..k]), writes[k]);
        CommitWrite(writes[k], seqNumber);
        assert writes[..k + 1][..k] == writes[..k];
      }
      assert writes[..|writes|] == writes;
    }

    method MintId() returns (r: Result<Id, StorageError>)
      requires Valid()
      modifies `nextId
      ensures Valid()
      ensures r == if closed then Err(Closed)
                   else if old(nextId) > MAX_SAFE_INTEGER then Err(IdsExhausted)
                   else Ok(old(nextId))
      ensures View() == if closed then old(View()) else Perform(old(View()), DurableTables.MintId)
      ensures nextId == if r.Ok? then old(nextId) + 1 else old(nextId)
    {
      if closed { return Err(Closed); }
      if !(-MAX_SAFE_INTEGER <= nextId <= MAX_SAFE_INTEGER) { return Err(IdsExhausted); }
      r := Ok(nextId);
      nextId := nextId + 1;
      CountersKeepConsistent(old(View()), View());
    }

    method Close()
      requires Valid()
      modifies `closed
      ensures Valid() && closed && View() == old(View())
    {
      closed := true;
    }

    // ----- Reading ------------------------------------------------------------------------------

    method InputByRequest(conversationId: Id, requestId: string) returns (r: Result<Option<Input>, StorageError>)
      requires Valid()
      ensures r == if closed then Err(Closed)
                   else if (conversationId, requestId) in requests
                        then assert RequestsSound(View()); Ok(Some(inputs[requests[(conversationId, requestId)]]))
                   else Ok(None)
    {
      if closed { return Err(Closed); }
      var key := (conversationId, requestId);
      assert key in requests <==> key.0 in inputIdsByRequest && key.1 in inputIdsByRequest[key.0];
      if conversationId in inputIdsByRequest && requestId in inputIdsByRequest[conversationId] {
        var id := inputIdsByRequest[conversationId][requestId];
        assert RequestsSound(View());
        return Ok(Some(inputs[id]));
      }
      return Ok(None);
    }

    method ScanConversations(cursor: Option<Id>, limit: nat) returns (r: Result<Page<Conversation>, StorageError>)
      requires Valid()
      ensures var ids := Oldest(After(conversations.Keys, cursor));
              && (forall i :: 0 <= i < |ids| ==> ids[i] in conversations)
              && r == if closed then Err(Closed) else RecordPage(conversations, ids, limit)
    {
      ghost var ids := Oldest(After(conversations.Keys, cursor));
      assert forall i :: 0 <= i < |ids| ==> ids[i] in ids;
      if closed { return Err(Closed); }
      var start := StartAfter(conversationIds, conversations.Keys, cursor);
      var end := if start + limit + 1 < |conversationIds| then start + limit + 1 else |conversationIds|;
      var wanted := conversationIds[start..end];
      assert wanted <= ids;
      assert KeyedById(View());
      r := MakePage(Records(conversations, wanted), (c: Conversation) => c.id, limit, conversations, wanted);
      PageOfPrefix(conversations, ids, wanted, limit);
    }

    method ScanTasks(query: TaskQuery, cursor: Option<Id>, limit: nat) returns (r: Result<Page<Task>, StorageError>)
      requires Valid()
      ensures var ids := Oldest(After(MatchingTasks(tasks, query), cursor));
              && (forall i :: 0 <= i < |ids| ==> ids[i] in tasks)
              && r == if closed then Err(Closed) else RecordPage(tasks, ids, limit)
      ensures !closed && r.Ok? ==> forall i :: 0 <= i < |r.value.items| ==>
        && r.value.items[i].id in tasks && tasks[r.value.items[i].id] == r.value.items[i]
        && Satisfies(query, cursor, r.value.items[i])
      ensures !closed && r.Ok? ==>
        forall id <- tasks :: Satisfies(query, cursor, tasks[id]) ==> OnPage(r.value, tasks[id], id)
    {
      ghost var wanted := Oldest(After(MatchingTasks(tasks, query), cursor));
      TaskPage(tasks, query, cursor, limit);
      assert forall i :: 0 <= i < |wanted| ==> wanted[i] in wanted;
      if closed { return Err(Closed); }
      assert KeyedById(View());
      var values, kept := TaskCandidates(query, cursor, limit);
      r := MakePage(values, (t: Task) => t.id, limit, tasks, kept);
      PageOfPrefix(tasks, wanted, kept, limit);
    }

    /** A task lies after the cursor and meets every condition that is asked for. */
    static predicate Satisfies(query: TaskQuery, cursor: Option<Id>, task: Task) {
      && (cursor.None? || cursor.value < task.id)
      && (query.conversationId.None? || query.conversationId.value == task.conversationId)
      && (query.kind.None? || query.kind.value == task.kind)
      && (query.status.None? || query.status.value == task.status)
      && (query.abortRequested.None? || query.abortRequested.value == task.abortRequested)
      && (query.background.None? || query.background.value == task.background)
    }

    static lemma MatchingAfter(tasks: map<Id, Task>, query: TaskQuery, cursor: Option<Id>, id: Id)
      requires id in tasks && tasks[id].id == id
      ensures id in After(MatchingTasks(tasks, query), cursor) <==> Satisfies(query, cursor, tasks[id])
    {
    }

    /** A page of tasks shows only what is asked for, and all of it up to its cursor. */
    static lemma TaskPage(tasks: map<Id, Task>, query: TaskQuery, cursor: Option<Id>, limit: nat)
      requires forall id <- tasks :: tasks[id].id == id
      ensures var ids := Oldest(After(MatchingTasks(tasks, query), cursor));
        && (forall i :: 0 <= i < |ids| ==> ids[i] in tasks)
        && var r := RecordPage(tasks, ids, limit);
           r.Ok? ==>
             && (forall i :: 0 <= i < |r.value.items| ==>
                   && r.value.items[i].id in tasks && tasks[r.value.items[i].id] == r.value.items[i]
                   && Satisfies(query, cursor, r.value.items[i]))
             && (forall id <- tasks :: Satisfies(query, cursor, tasks[id]) ==> OnPage(r.value, tasks[id], id))
    {
      var s := After(MatchingTasks(tasks, query), cursor);
      var ids := Oldest(s);
      Members(ids, s);
      forall id | id in tasks ensures id in s <==> Satisfies(query, cursor, tasks[id]) {
        MatchingAfter(tasks, query, cursor, id);
      }
      if RecordPage(tasks, ids, limit).Ok? {
        PageHolds(tasks, ids, limit);
        forall id | id in tasks && Satisfies(query, cursor, tasks[id])
          ensures OnPage(RecordPage(tasks, ids, limit).value, tasks[id], id)
        {
          ListedOnPage(tasks, ids, limit, id);
        }
      }
    }

    static predicate OnPage(page: Page<Task>, task: Task, id: Id) {
      task in page.items || (page.next.Some? && page.next.value < id)
    }

    static lemma ListedOnPage(tasks: map<Id, Task>, ids: seq<Id>, limit: nat, id: Id)
      requires (forall i :: 0 <= i < |ids| ==> ids[i] in tasks) && id in ids && Ascending(ids)
      requires RecordPage(tasks, ids, limit).Ok?
      ensures OnPage(RecordPage(tasks, ids, limit).value, tasks[id], id)
    {
      PageHolds(tasks, ids, limit);
      var i :| 0 <= i < |ids| && ids[i] == id;
      var page := RecordPage(tasks, ids, limit).value;
      assert i < |page.items| ==> page.items[i] == tasks[id];
    }

    method TaskCandidates(query: TaskQuery, cursor: Option<Id>, limit: nat)
      returns (values: seq<Task>, ghost kept: seq<Id>)
      requires TasksIndexed(tasks, taskIds, taskIdsByStatus)
      ensures forall i :: 0 <= i < |kept| ==> kept[i] in tasks
      ensures values == Records(tasks, kept)
      ensures var wanted := Oldest(After(MatchingTasks(tasks, query), cursor));
              kept <= wanted && (kept == wanted || |kept| == limit + 1)
    {
      ghost var s := if query.status.None? then tasks.Keys else TasksWith(tasks, query.status.value);
      var ids := if query.status.None? then taskIds else taskIdsByStatus[query.status.value];
      assert Enumerates(ids, s);
      Members(ids, s);
      var start := StartAfter(ids, s, cursor);
      FilterTasksSelects(tasks, query, ids[start..]);
      OldestIs(FilterTasks(tasks, query, ids[start..]), After(MatchingTasks(tasks, query), cursor));
      values, kept := CollectTasks(tasks, query, ids, start, limit);
    }

    /** The first `limit + 1` visible entries of a range, walking from the conversation up its ancestors. */
    method VisibleEntries(conversationId: Id, lower: Option<Id>, upper: Option<Id>, limit: nat)
      returns (visible: seq<Entry>, ghost kept: seq<Id>)
      requires EntryIndexed(entries, entryIds) && Ancestry(View()) && conversationId in conversations
      ensures Shows(entries, visible, kept)
      ensures var all := Keep(Walk(View(), conversationId, upper), lower);
              kept <= all && (kept == all || |kept| == limit + 1)
    {
      ghost var all := Keep(Walk(View(), conversationId, upper), lower);
      visible, kept := [], [];
      WalkStarts(View(), conversationId, upper, lower, limit, all);
      var position := Some(Position(conversationId, upper));
      while position.Some?
        invariant Shows(entries, visible, kept) && WalksOn(View(), lower, limit, all, kept, position)
        decreases if position.None? then 0 else 1 + Height(View(), position.value)
      {
        visible, kept, position := VisitAndClimb(position.value, lower, limit, visible, kept, all);
      }
    }

    /** The visible entries are the records of the ids that were kept. */
    static ghost predicate Shows(entries: map<Id, Entry>, visible: seq<Entry>, kept: seq<Id>) {
      (forall i :: 0 <= i < |kept| ==> kept[i] in entries) && visible == Records(entries, kept)
    }

    /** How far up the ancestors a position is. */
    static ghost function Height(t: Tables, position: Position): nat {
      if position.conversationId in t.order then Rank(t.order, position.conversationId) else 0
    }

    /** What was kept and what the walk from the position still gives is all there is; without a position it is over. */
    static ghost predicate WalksOn(t: Tables, lower: Option<Id>, limit: nat, all: seq<Id>, kept: seq<Id>,
                                   position: Option<Position>)
      requires Ancestry(t)
    {
      match position
      case None => kept <= all && (kept == all || |kept| == limit + 1)
      case Some(p) =>
        && p.conversationId in t.conversations && |kept| <= limit
        && all == kept + Keep(Walk(t, p.conversationId, p.upper), lower)
    }

    static lemma WalkStarts(t: Tables, c: Id, upper: Option<Id>, lower: Option<Id>, limit: nat, all: seq<Id>)
      requires Ancestry(t) && c in t.conversations && all == Keep(Walk(t, c, upper), lower)
      ensures WalksOn(t, lower, limit, all, [], Some(Position(c, upper)))
    {
      assert [] + all == all;
    }

    /** One conversation of the walk, and where it goes on. */
    method VisitAndClimb(position: Position, lower: Option<Id>, limit: nat, visible: seq<Entry>, ghost kept: seq<Id>,
                         ghost all: seq<Id>)
      returns (visible': seq<Entry>, ghost kept': seq<Id>, next: Option<Position>)
      requires EntryIndexed(entries, entryIds) && Ancestry(View()) && Shows(entries, visible, kept)
      requires WalksOn(View(), lower, limit, all, kept, Some(position))
      ensures Shows(entries, visible', kept')
      ensures WalksOn(View(), lower, limit, all, kept', next)
      ensures next.Some? ==> Height(View(), next.value) < Height(View(), position)
    {
      var c, upper := position.conversationId, position.upper;
      visible', kept' := VisitConversation(c, lower, upper, limit, visible, kept);
      next := Climb(conversations[c].parent, lower, upper, |visible'| > limit);
      ContinueWalk(View(), c, upper, lower, limit, kept, kept');
    }

    /** Where a walk goes on after a conversation: with its parent, up to the smaller cutoff, unless that is too low. */
    static function Climb(parent: Option<Parent>, lower: Option<Id>, upper: Option<Id>, full: bool): Option<Position> {
      if full || parent.None? then None
      else
        var upperEntryId := Lower(upper, parent.value.at);
        if AtLeast(upperEntryId, lower) then Some(Position(parent.value.conversationId, Some(upperEntryId))) else None
    }

    /** After one conversation the walk is finished, or continues with the parent's part. */
    static lemma ContinueWalk(t: Tables, c: Id, upper: Option<Id>, lower: Option<Id>, limit: nat, before: seq<Id>,
                              kept: seq<Id>)
      requires Ancestry(t) && c in t.conversations
      requires var own := before + Keep(Newest(OwnUpTo(t, c, upper)), lower);
               kept <= own && |kept| <= limit + 1 && (|kept| <= limit ==> kept == own)
      ensures WalksOn(t, lower, limit, before + Keep(Walk(t, c, upper), lower), kept,
                      Climb(t.conversations[c].parent, lower, upper, |kept| > limit))
    {
      var rest := InheritedPart(t, c, upper, lower);
      var whole := WholeWalk(t, c, upper, lower, before, kept, rest);
      if |kept| <= limit && t.conversations[c].parent.Some? {
        ContinueUp(t, t.conversations[c].parent.value, upper, lower, limit, whole, kept, rest);
      }
    }

    static lemma WholeWalk(t: Tables, c: Id, upper: Option<Id>, lower: Option<Id>, before: seq<Id>, kept: seq<Id>,
                           rest: seq<Id>) returns (whole: seq<Id>)
      requires Ancestry(t) && c in t.conversations && kept <= before + Keep(Newest(OwnUpTo(t, c, upper)), lower)
      requires rest == match t.conversations[c].parent
        case None => []
        case Some(p) => Keep(Walk(t, p.conversationId, Some(Lower(upper, p.at))), lower)
      ensures whole == before + Keep(Walk(t, c, upper), lower) && kept <= whole
      ensures kept == before + Keep(Newest(OwnUpTo(t, c, upper)), lower) ==>
        whole == kept + rest && (rest == [] ==> kept == whole)
    {
      SplitWalk(t, c, upper, lower, rest);
      var own, all := Keep(Newest(OwnUpTo(t, c, upper)), lower), Keep(Walk(t, c, upper), lower);
      ContinueList(before, own, rest, all, kept);
      whole := before + all;
    }

    static lemma ContinueUp(t: Tables, parent: Parent, upper: Option<Id>, lower: Option<Id>, limit: nat,
                            whole: seq<Id>, kept: seq<Id>, rest: seq<Id>)
      requires Ancestry(t) && parent.conversationId in t.conversations && |kept| <= limit
      requires rest == Keep(Walk(t, parent.conversationId, Some(Lower(upper, parent.at))), lower)
      requires whole == kept + rest && kept <= whole && (rest == [] ==> kept == whole)
      requires Climb(Some(parent), lower, upper, false).None? ==> rest == []
      ensures WalksOn(t, lower, limit, whole, kept, Climb(Some(parent), lower, upper, false))
    {
    }

    /** What the parents of a conversation contribute to its walk. */
    static lemma InheritedPart(t: Tables, c: Id, upper: Option<Id>, lower: Option<Id>) returns (rest: seq<Id>)
      requires Ancestry(t) && c in t.conversations
      ensures rest == match t.conversations[c].parent
        case None => []
        case Some(p) => Keep(Walk(t, p.conversationId, Some(Lower(upper, p.at))), lower)
      ensures Climb(t.conversations[c].parent, lower, upper, false).None? ==> rest == []
    {
      match t.conversations[c].parent
      case None => rest := [];
      case Some(p) =>
        var inherited := Walk(t, p.conversationId, Some(Lower(upper, p.at)));
        rest := Keep(inherited, lower);
        if !AtLeast(Lower(upper, p.at), lower) {
          KeepNone(inherited, lower);
        }
    }

    static lemma ContinueList(before: seq<Id>, own: seq<Id>, rest: seq<Id>, whole: seq<Id>, kept: seq<Id>)
      requires whole == own + rest && kept <= before + own
      ensures kept <= before + whole
      ensures kept == before + own ==> before + whole == kept + rest && (rest == [] ==> kept == before + whole)
    {
      assert before + whole == (before + own) + rest;
    }

    /** The part of the walk that one conversation contributes. */
    method VisitConversation(c: Id, lower: Option<Id>, upper: Option<Id>, limit: nat, visible: seq<Entry>,
                             ghost kept: seq<Id>)
      returns (visible': seq<Entry>, ghost kept': seq<Id>)
      requires EntryIndexed(entries, entryIds) && |kept| <= limit
      requires forall i :: 0 <= i < |kept| ==> kept[i] in entries
      requires visible == Records(entries, kept)
      ensures forall i :: 0 <= i < |kept'| ==> kept'[i] in entries
      ensures visible' == Records(entries, kept') && |kept'| <= limit + 1
      ensures var own := kept + Keep(Newest(OwnUpTo(View(), c, upper)), lower);
              kept' <= own && (|kept'| <= limit ==> kept' == own)
    {
      var ids := Listed(entryIds, c);
      EntriesListed(c);
      var end := CountUpTo(ids, upper);
      OwnBackwards(View(), ids, end, c, upper);
      visible', kept' := VisitOwn(entries, ids, end, lower, limit, visible, kept);
    }

    lemma EntriesListed(c: Id)
      requires EntryIndexed(entries, entryIds)
      ensures Enumerates(Listed(entryIds, c), EntriesOf(entries, c))
      ensures forall i :: 0 <= i < |Listed(entryIds, c)| ==> Listed(entryIds, c)[i] in entries
    {
      assert Enumerates(Listed(entryIds, c), EntriesOf(entries, c));
      Members(Listed(entryIds, c), EntriesOf(entries, c));
    }

    /** A walk is the own entries followed by the walk of the parent. */
    static lemma SplitWalk(t: Tables, c: Id, upper: Option<Id>, lower: Option<Id>, rest: seq<Id>)
      requires Ancestry(t) && c in t.conversations
      requires rest == match t.conversations[c].parent
        case None => []
        case Some(p) => Keep(Walk(t, p.conversationId, Some(Lower(upper, p.at))), lower)
      ensures Keep(Walk(t, c, upper), lower) == Keep(Newest(OwnUpTo(t, c, upper)), lower) + rest
    {
      var own := Newest(OwnUpTo(t, c, upper));
      match t.conversations[c].parent
      case None => assert own + [] == own && Keep(own, lower) + [] == Keep(own, lower);
      case Some(p) => KeepAppend(own, Walk(t, p.conversationId, Some(Lower(upper, p.at))), lower);
    }

    method ScanEntries(query: EntryQuery, cursor: Option<Id>, limit: nat) returns (r: Result<Page<Entry>, StorageError>)
      requires Valid() && Ancestry(View())
      ensures closed ==> r == Err(Closed)
      ensures !closed && query.conversationId !in conversations ==> r == Err(UnknownConversation(query.conversationId))
      ensures !closed && query.conversationId in conversations ==>
                var ids := EntryRange(View(), query, cursor);
                (forall i :: 0 <= i < |ids| ==> ids[i] in entries) && r == RecordPage(entries, ids, limit)
    {
      if closed { return Err(Closed); }
      if query.conversationId !in conversations { return Err(UnknownConversation(query.conversationId)); }
      var maxEntryId := Cutoff(query, cursor);
      var visible, kept := VisibleEntries(query.conversationId, query.minEntryId, maxEntryId, limit);
      KeepWithin(Walk(View(), query.conversationId, maxEntryId), query.minEntryId, entries.Keys);
      assert KeyedById(View());
      r := MakePage(visible, (e: Entry) => e.id, limit, entries, kept);
      PageOfPrefix(entries, EntryRange(View(), query, cursor), kept, limit);
    }

    /** The newest own entry with a head at or below the cutoff, found through the head index. */
    method OwnHead(c: Id, upper: Option<Id>) returns (r: Option<Id>)
      requires HeadsIndexed(entries, headEntryIds)
      ensures var heads := Newest(set e <- HeadsOf(entries, c) | AtMost(e, upper));
              r == if heads == [] then None else Some(heads[0])
    {
      var ids := Listed(headEntryIds, c);
      assert Enumerates(ids, HeadsOf(entries, c));
      var end := CountUpTo(ids, upper);
      LastUpTo(ids, end, HeadsOf(entries, c), upper);
      if end >= 1 { return Some(ids[end - 1]); }
      return None;
    }

    /** The newest members up to a cutoff are the first `end` ids, backwards. */
    static lemma LastUpTo(ids: seq<Id>, end: nat, s: set<Id>, upper: Option<Id>)
      requires Enumerates(ids, s) && end <= |ids|
      requires forall i :: 0 <= i < |ids| ==> (i < end <==> AtMost(ids[i], upper))
      ensures var newest := Newest(set e <- s | AtMost(e, upper));
              if end == 0 then newest == [] else newest != [] && newest[0] == ids[end - 1]
    {
      var cut := set e <- s | AtMost(e, upper);
      assert ids == ids[..end] + ids[end..];
      BackwardsDescends(ids[..end]);
      NewestIs(Backwards(ids[..end]), cut);
    }

    /** The head index agrees with the entries themselves. */
    static lemma OwnHeadIsFirst(t: Tables, c: Id, upper: Option<Id>, r: Option<Id>)
      requires var heads := Newest(set e <- HeadsOf(t.entries, c) | AtMost(e, upper));
               r == if heads == [] then None else Some(heads[0])
      ensures var own := Newest(OwnUpTo(t, c, upper));
              (forall i :: 0 <= i < |own| ==> own[i] in t.entries) && r == FirstHead(t, own)
    {
      var s := set e <- HeadsOf(t.entries, c) | AtMost(e, upper);
      var own, heads := Newest(OwnUpTo(t, c, upper)), Newest(s);
      Members(own, OwnUpTo(t, c, upper));
      FirstHeadIsGreatest(t, own);
      assert forall e :: e in s <==> e in own && t.entries[e].head.Some?;
      if heads != [] {
        assert heads[0] in heads && heads[0] in own;
        var h := FirstHead(t, own).value;
        assert h in heads;
      } else {
        assert forall e <- s :: e in heads;
      }
    }

    method FindLatestHeadMarker(conversationId: Id, atOrBefore: Option<Id>)
      returns (r: Result<Option<Entry>, StorageError>)
      requires Valid() && Ancestry(View())
      ensures closed ==> r == Err(Closed)
      ensures !closed && conversationId !in conversations ==> r == Err(UnknownConversation(conversationId))
      ensures !closed && conversationId in conversations ==>
                r == match FirstHead(View(), Walk(View(), conversationId, atOrBefore))
                     case None => Ok(None)
                     case Some(h) => Ok(Some(View().entries[h]))
    {
      if closed { return Err(Closed); }
      if conversationId !in conversations { return Err(UnknownConversation(conversationId)); }
      ghost var t, marker := View(), FirstHead(View(), Walk(View(), conversationId, atOrBefore));
      var currentId, upperEntryId := conversationId, atOrBefore;
      while true
        invariant currentId in conversations
        invariant marker == FirstHead(t, Walk(t, currentId, upperEntryId))
        decreases Rank(order, currentId)
      {
        ghost var own := Newest(OwnUpTo(t, currentId, upperEntryId));
        var head := OwnHead(currentId, upperEntryId);
        OwnHeadIsFirst(t, currentId, upperEntryId, head);
        FirstHeadIsGreatest(t, own);
        var parent := conversations[currentId].parent;
        if parent.Some? {
          FirstHeadAppend(t, own, Walk(t, parent.value.conversationId, Some(Lower(upperEntryId, parent.value.at))));
        } else {
          assert own + [] == own;
        }
        if head.Some? { return Ok(Some(entries[head.value])); }
        if parent.None? { return Ok(None); }
        upperEntryId := Some(Lower(upperEntryId, parent.value.at));
        currentId := parent.value.conversationId;
      }
    }
  }
}
