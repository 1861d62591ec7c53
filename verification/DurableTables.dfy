/**
 The records of the durable store (packages/durable/src/types.ts) and what a commit means for its
 primary tables. `MemoryStorage` is proved against this module; the secondary indexes do not occur here.
 */
module DurableTables {
  import opened Wrappers
  import opened SortedIds

  const MAX_SAFE_INTEGER: int := 0x1f_ffff_ffff_ffff

  datatype Parent = Parent(conversationId: Id, at: Id)

  datatype Conversation = Conversation(id: Id, parent: Option<Parent>, owner: string)

  datatype Entry = Entry(id: Id, conversationId: Id, head: Option<Id>, body: string)

  datatype TaskStatus = Pending | Running | Terminal

  datatype Task = Task(id: Id, conversationId: Id, kind: string, status: TaskStatus,
                       abortRequested: bool, background: bool, body: string)

  datatype Input = Input(id: Id, conversationId: Id, requestId: Option<string>, body: string) {
    predicate Carries(key: (Id, string)) {
      conversationId == key.0 && requestId == Some(key.1)
    }
  }

  datatype TableName = ConversationTable | EntryTable | TaskTable | InputTable {
    /** Records of these tables are created once and never replaced. */
    predicate Immutable() { ConversationTable? || EntryTable? }
  }

  datatype Write =
    | ConversationWrite(conversation: Conversation)
    | EntryWrite(entry: Entry)
    | TaskWrite(task: Task)
    | InputWrite(input: Input)
  {
    function Id(): Id {
      match this
      case ConversationWrite(v) => v.id
      case EntryWrite(v) => v.id
      case TaskWrite(v) => v.id
      case InputWrite(v) => v.id
    }

    function Table(): TableName {
      match this
      case ConversationWrite(_) => ConversationTable
      case EntryWrite(_) => EntryTable
      case TaskWrite(_) => TaskTable
      case InputWrite(_) => InputTable
    }
  }

  datatype StorageError =
    | Closed
    | IdTaken(id: Id, owner: TableName)
    | WrittenTwice(id: Id)
    | TwoRecordTypes(id: Id)
    | IdsExhausted
    | UnknownConversation(id: Id)
    | NoLastItem

  /**
   The primary tables. `order` is the order in which conversations were inserted, which the
   implementation's map keeps as its iteration order.
   */
  datatype Tables = Tables(
    conversations: map<Id, Conversation>,
    order: seq<Id>,
    entries: map<Id, Entry>,
    commitSeqs: map<Id, nat>,
    tasks: map<Id, Task>,
    inputs: map<Id, Input>,
    requests: map<(Id, string), Id>,
    nextId: Id,
    nextSeq: nat)

  const EMPTY := Tables(map[], [], map[], map[], map[], map[], map[], 2, 1)

  predicate Holds(t: Tables, table: TableName, id: Id) {
    match table
    case ConversationTable => id in t.conversations
    case EntryTable => id in t.entries
    case TaskTable => id in t.tasks
    case InputTable => id in t.inputs
  }

  // ----- One write ------------------------------------------------------------------------------

  /**
   The request index after `next` replaced `previous`: the old pair is dropped only while it still names this input.
   */
  function Reindexed(requests: map<(Id, string), Id>, previous: Option<Input>, next: Input): map<(Id, string), Id> {
    var kept :=
      if previous.Some? && previous.value.requestId.Some? then
        var key := (previous.value.conversationId, previous.value.requestId.value);
        if key in requests && requests[key] == next.id then requests - {key} else requests
      else requests;
    if next.requestId.Some? then kept[(next.conversationId, next.requestId.value) := next.id] else kept
  }

  function Lookup<K, V>(m: map<K, V>, key: K): Option<V> {
    if key in m then Some(m[key]) else None
  }

  function Apply(t: Tables, w: Write): Tables {
    var t' := t.(nextId := if t.nextId < w.Id() + 1 then w.Id() + 1 else t.nextId);
    match w
    case ConversationWrite(v) => t'.(conversations := t.conversations[v.id := v], order := t.order + [v.id])
    case EntryWrite(v) => t'.(entries := t.entries[v.id := v], commitSeqs := t.commitSeqs[v.id := t.nextSeq])
    case TaskWrite(v) => t'.(tasks := t.tasks[v.id := v])
    case InputWrite(v) =>
      t'.(inputs := t.inputs[v.id := v], requests := Reindexed(t.requests, Lookup(t.inputs, v.id), v))
  }

  function ApplyAll(t: Tables, writes: seq<Write>): Tables {
    if writes == [] then t
    else Apply(ApplyAll(t, writes[..|writes| - 1]), writes[|writes| - 1])
  }

  /** What holds before a batch and survives each of its writes holds after any part of it. */
  lemma {:induction false} BatchInduction(good: Tables -> bool, t: Tables, writes: seq<Write>, k: nat)
    requires k <= |writes| && good(t)
    requires forall i :: 0 <= i < |writes| && good(ApplyAll(t, writes[..i])) ==>
      good(Apply(ApplyAll(t, writes[..i]), writes[i]))
    ensures good(ApplyAll(t, writes[..k]))
  {
    if k == 0 {
      assert writes[..0] == [];
    } else {
      BatchInduction(good, t, writes, k - 1);
      assert writes[..k][..k - 1] == writes[..k - 1];
    }
  }

  /** A write keeps the id namespace: no other table owns its id, and an immutable record is new. */
  ghost predicate Admissible(t: Tables, w: Write) {
    forall table :: Holds(t, table, w.Id()) ==> table == w.Table() && !table.Immutable()
  }

  /** Every write of a batch is admissible at the moment its turn comes. */
  ghost predicate Acceptable(t: Tables, writes: seq<Write>) {
    forall i :: 0 <= i < |writes| ==> Admissible(ApplyAll(t, writes[..i]), writes[i])
  }

  /** After a batch a table holds what it held before and what the batch wrote to it. */
  lemma {:induction false} HoldsAfter(t: Tables, writes: seq<Write>, table: TableName, id: Id)
    ensures Holds(ApplyAll(t, writes), table, id)
       <==> Holds(t, table, id) || exists w <- writes :: w.Table() == table && w.Id() == id
  {
    if writes != [] {
      var before, last := writes[..|writes| - 1], writes[|writes| - 1];
      HoldsAfter(t, before, table, id);
      HoldsAfterOne(ApplyAll(t, before), last, table, id);
      assert writes == before + [last];
    }
  }

  lemma HoldsAfterOne(t: Tables, w: Write, table: TableName, id: Id)
    ensures Holds(Apply(t, w), table, id) <==> Holds(t, table, id) || (w.Table() == table && w.Id() == id)
  {
  }

  // ----- Which record a batch leaves ------------------------------------------------------------

  /** `after` is the last of what was written, or what there was before if nothing was. */
  ghost predicate LastWritten<V>(before: Option<V>, written: seq<Option<V>>, after: Option<V>) {
    (after == before && forall i :: 0 <= i < |written| ==> written[i].None?)
    || exists i :: 0 <= i < |written| && written[i].Some? && after == written[i]
                   && forall j :: i < j < |written| ==> written[j].None?
  }

  lemma WrittenInTwo<V>(before: Option<V>, first: seq<Option<V>>, between: Option<V>, second: seq<Option<V>>,
                        after: Option<V>)
    requires LastWritten(before, first, between) && LastWritten(between, second, after)
    ensures LastWritten(before, first + second, after)
  {
    var all := first + second;
    assert forall i :: 0 <= i < |first| ==> all[i] == first[i];
    assert forall i :: 0 <= i < |second| ==> all[|first| + i] == second[i];
    if !(after == between && forall i :: 0 <= i < |second| ==> second[i].None?) {
      var i :| 0 <= i < |second| && second[i].Some? && after == second[i]
               && forall j :: i < j < |second| ==> second[j].None?;
      assert all[|first| + i] == after && forall j :: |first| + i < j < |all| ==> all[j] == second[j - |first|];
    } else if !(between == before && forall i :: 0 <= i < |first| ==> first[i].None?) {
      var i :| 0 <= i < |first| && first[i].Some? && between == first[i]
               && forall j :: i < j < |first| ==> first[j].None?;
      assert all[i] == after && forall j :: i < j < |all| ==> all[j].None?;
    }
  }

  /** What each write of a batch puts under an id of one table. */
  function ConversationsUnder(writes: seq<Write>, id: Id): seq<Option<Conversation>> {
    seq(|writes|, i requires 0 <= i < |writes| =>
      if writes[i].ConversationWrite? && writes[i].conversation.id == id then Some(writes[i].conversation) else None)
  }

  function EntriesUnder(writes: seq<Write>, id: Id): seq<Option<Entry>> {
    seq(|writes|, i requires 0 <= i < |writes| =>
      if writes[i].EntryWrite? && writes[i].entry.id == id then Some(writes[i].entry) else None)
  }

  function TasksUnder(writes: seq<Write>, id: Id): seq<Option<Task>> {
    seq(|writes|, i requires 0 <= i < |writes| =>
      if writes[i].TaskWrite? && writes[i].task.id == id then Some(writes[i].task) else None)
  }

  function InputsUnder(writes: seq<Write>, id: Id): seq<Option<Input>> {
    seq(|writes|, i requires 0 <= i < |writes| =>
      if writes[i].InputWrite? && writes[i].input.id == id then Some(writes[i].input) else None)
  }

  /** The number that each write of a batch gives to an entry id. */
  function SeqsUnder(writes: seq<Write>, id: Id, number: nat): seq<Option<nat>> {
    seq(|writes|, i requires 0 <= i < |writes| =>
      if writes[i].EntryWrite? && writes[i].entry.id == id then Some(number) else None)
  }

  /** From `t` to `t'` every table took, id by id, the last of what was written to it. */
  ghost predicate Stores(t: Tables, writes: seq<Write>, t': Tables, id: Id) {
    && LastWritten(Lookup(t.conversations, id), ConversationsUnder(writes, id), Lookup(t'.conversations, id))
    && LastWritten(Lookup(t.entries, id), EntriesUnder(writes, id), Lookup(t'.entries, id))
    && LastWritten(Lookup(t.tasks, id), TasksUnder(writes, id), Lookup(t'.tasks, id))
    && LastWritten(Lookup(t.inputs, id), InputsUnder(writes, id), Lookup(t'.inputs, id))
  }

  /** And every entry that was written got the number. */
  ghost predicate Numbers(t: Tables, writes: seq<Write>, t': Tables, id: Id, number: nat) {
    LastWritten(Lookup(t.commitSeqs, id), SeqsUnder(writes, id, number), Lookup(t'.commitSeqs, id))
  }

  lemma OneStores(t: Tables, w: Write, id: Id)
    ensures Stores(t, [w], Apply(t, w), id)
  {
    OneImmutable(t, w, id);
    OneMutable(t, w, id);
  }

  lemma OneImmutable(t: Tables, w: Write, id: Id)
    ensures LastWritten(Lookup(t.conversations, id), ConversationsUnder([w], id), Lookup(Apply(t, w).conversations, id))
    ensures LastWritten(Lookup(t.entries, id), EntriesUnder([w], id), Lookup(Apply(t, w).entries, id))
  {
    if w.ConversationWrite? {
      assert ConversationsUnder([w], id)[0] == if w.conversation.id == id then Some(w.conversation) else None;
    } else if w.EntryWrite? {
      assert EntriesUnder([w], id)[0] == if w.entry.id == id then Some(w.entry) else None;
    }
  }

  lemma OneMutable(t: Tables, w: Write, id: Id)
    ensures LastWritten(Lookup(t.tasks, id), TasksUnder([w], id), Lookup(Apply(t, w).tasks, id))
    ensures LastWritten(Lookup(t.inputs, id), InputsUnder([w], id), Lookup(Apply(t, w).inputs, id))
  {
    if w.TaskWrite? {
      assert TasksUnder([w], id)[0] == if w.task.id == id then Some(w.task) else None;
    } else if w.InputWrite? {
      assert InputsUnder([w], id)[0] == if w.input.id == id then Some(w.input) else None;
    }
  }

  lemma OneNumbers(t: Tables, w: Write, id: Id)
    ensures Numbers(t, [w], Apply(t, w), id, t.nextSeq) && Apply(t, w).nextSeq == t.nextSeq
  {
    assert SeqsUnder([w], id, t.nextSeq)[0] == if w.EntryWrite? && w.entry.id == id then Some(t.nextSeq) else None;
  }

  lemma {:induction false} BatchStores(t: Tables, writes: seq<Write>, id: Id)
    ensures Stores(t, writes, ApplyAll(t, writes), id)
  {
    if writes != [] {
      var init, w := writes[..|writes| - 1], writes[|writes| - 1];
      BatchStores(t, init, id);
      OneStores(ApplyAll(t, init), w, id);
      assert writes == init + [w];
      StoresInTwo(t, init, ApplyAll(t, init), [w], ApplyAll(t, writes), id);
    }
  }

  lemma {:induction false} BatchNumbers(t: Tables, writes: seq<Write>, id: Id)
    ensures Numbers(t, writes, ApplyAll(t, writes), id, t.nextSeq) && ApplyAll(t, writes).nextSeq == t.nextSeq
  {
    if writes != [] {
      var init, w := writes[..|writes| - 1], writes[|writes| - 1];
      BatchNumbers(t, init, id);
      OneNumbers(ApplyAll(t, init), w, id);
      assert writes == init + [w];
      NumbersInTwo(t, init, ApplyAll(t, init), [w], ApplyAll(t, writes), id, t.nextSeq);
    }
  }

  lemma NumbersInTwo(t: Tables, first: seq<Write>, between: Tables, second: seq<Write>, t': Tables, id: Id, number: nat)
    requires Numbers(t, first, between, id, number) && Numbers(between, second, t', id, number)
    ensures Numbers(t, first + second, t', id, number)
  {
    assert SeqsUnder(first + second, id, number) == SeqsUnder(first, id, number) + SeqsUnder(second, id, number);
    WrittenInTwo(Lookup(t.commitSeqs, id), SeqsUnder(first, id, number), Lookup(between.commitSeqs, id),
                 SeqsUnder(second, id, number), Lookup(t'.commitSeqs, id));
  }

  lemma StoresInTwo(t: Tables, first: seq<Write>, between: Tables, second: seq<Write>, t': Tables, id: Id)
    requires Stores(t, first, between, id) && Stores(between, second, t', id)
    ensures Stores(t, first + second, t', id)
  {
    UnderBoth(first, second, id);
    WrittenInTwo(Lookup(t.conversations, id), ConversationsUnder(first, id), Lookup(between.conversations, id),
                 ConversationsUnder(second, id), Lookup(t'.conversations, id));
    WrittenInTwo(Lookup(t.entries, id), EntriesUnder(first, id), Lookup(between.entries, id),
                 EntriesUnder(second, id), Lookup(t'.entries, id));
    WrittenInTwo(Lookup(t.tasks, id), TasksUnder(first, id), Lookup(between.tasks, id),
                 TasksUnder(second, id), Lookup(t'.tasks, id));
    WrittenInTwo(Lookup(t.inputs, id), InputsUnder(first, id), Lookup(between.inputs, id),
                 InputsUnder(second, id), Lookup(t'.inputs, id));
  }

  lemma UnderBoth(first: seq<Write>, second: seq<Write>, id: Id)
    ensures ConversationsUnder(first + second, id) == ConversationsUnder(first, id) + ConversationsUnder(second, id)
    ensures EntriesUnder(first + second, id) == EntriesUnder(first, id) + EntriesUnder(second, id)
    ensures TasksUnder(first + second, id) == TasksUnder(first, id) + TasksUnder(second, id)
    ensures InputsUnder(first + second, id) == InputsUnder(first, id) + InputsUnder(second, id)
  {
  }

  /** The next id is as far up as the ids of a batch require, and no further. */
  ghost predicate NextIdFits(before: Id, writes: seq<Write>, after: Id) {
    && before <= after && (forall i :: 0 <= i < |writes| ==> writes[i].Id() < after)
    && (after == before || exists i :: 0 <= i < |writes| && after == writes[i].Id() + 1)
  }

  lemma NextIdOneMore(before: Id, writes: seq<Write>, after: Id, w: Write)
    requires NextIdFits(before, writes, after)
    ensures NextIdFits(before, writes + [w], if after < w.Id() + 1 then w.Id() + 1 else after)
  {
    var all := writes + [w];
    assert all[|writes|] == w && forall i :: 0 <= i < |writes| ==> all[i] == writes[i];
  }

  lemma NextIdRises(t: Tables, init: seq<Write>, w: Write)
    ensures var n := ApplyAll(t, init).nextId;
      ApplyAll(t, init + [w]).nextId == if n < w.Id() + 1 then w.Id() + 1 else n
  {
    assert (init + [w])[..|init|] == init;
  }

  lemma {:induction false} NextIdAfter(t: Tables, writes: seq<Write>)
    ensures NextIdFits(t.nextId, writes, ApplyAll(t, writes).nextId)
  {
    if writes == [] {
      assert ApplyAll(t, writes) == t;
    } else {
      var init, w := writes[..|writes| - 1], writes[|writes| - 1];
      var n := ApplyAll(t, init).nextId;
      NextIdAfter(t, init);
      NextIdRises(t, init, w);
      NextIdOneMore(t.nextId, init, n, w);
      assert writes == init + [w];
    }
  }

  /** What a batch may write under its ids, said by the ids alone. */
  ghost predicate MayWrite(t: Tables, writes: seq<Write>, k: nat)
    requires k < |writes|
  {
    match writes[k]
    case ConversationWrite(v) =>
      && v.id !in t.conversations && v.id !in t.entries && v.id !in t.tasks && v.id !in t.inputs
      && forall j :: 0 <= j < k ==> writes[j].Id() != v.id
    case EntryWrite(v) =>
      && v.id !in t.conversations && v.id !in t.entries && v.id !in t.tasks && v.id !in t.inputs
      && forall j :: 0 <= j < k ==> writes[j].Id() != v.id
    case TaskWrite(v) =>
      && v.id !in t.conversations && v.id !in t.entries && v.id !in t.inputs
      && forall j :: 0 <= j < k && writes[j].Id() == v.id ==> writes[j].TaskWrite?
    case InputWrite(v) =>
      && v.id !in t.conversations && v.id !in t.entries && v.id !in t.tasks
      && forall j :: 0 <= j < k && writes[j].Id() == v.id ==> writes[j].InputWrite?
  }

  /** One of the first k writes puts the id into the table. */
  ghost predicate WrittenTo(writes: seq<Write>, k: nat, table: TableName, id: Id)
    requires k <= |writes|
  {
    exists j :: 0 <= j < k && writes[j].Table() == table && writes[j].Id() == id
  }

  lemma HeldAfter(t: Tables, writes: seq<Write>, k: nat, table: TableName, id: Id)
    requires k <= |writes|
    ensures Holds(ApplyAll(t, writes[..k]), table, id) <==> Holds(t, table, id) || WrittenTo(writes, k, table, id)
  {
    HoldsAfter(t, writes[..k], table, id);
    if v :| v in writes[..k] && v.Table() == table && v.Id() == id {
      var j :| 0 <= j < k && writes[j] == v;
    }
    if WrittenTo(writes, k, table, id) {
      var j :| 0 <= j < k && writes[j].Table() == table && writes[j].Id() == id;
      assert writes[..k][j] in writes[..k];
    }
  }

  lemma AdmissibleByIds(t: Tables, writes: seq<Write>, k: nat)
    requires k < |writes|
    ensures Admissible(ApplyAll(t, writes[..k]), writes[k]) <==> MayWrite(t, writes, k)
  {
    var w, held := writes[k], ApplyAll(t, writes[..k]);
    forall table
      ensures Holds(held, table, w.Id()) <==> Holds(t, table, w.Id()) || WrittenTo(writes, k, table, w.Id())
    {
      HeldAfter(t, writes, k, table, w.Id());
    }
    assert Holds(t, ConversationTable, w.Id()) <==> w.Id() in t.conversations;
    assert Holds(t, EntryTable, w.Id()) <==> w.Id() in t.entries;
    assert Holds(t, TaskTable, w.Id()) <==> w.Id() in t.tasks;
    assert Holds(t, InputTable, w.Id()) <==> w.Id() in t.inputs;
    if Admissible(held, w) {
      forall j | 0 <= j < k && writes[j].Id() == w.Id()
        ensures writes[j].Table() == w.Table() && !w.Table().Immutable()
      {
        assert WrittenTo(writes, k, writes[j].Table(), w.Id()) && Holds(held, writes[j].Table(), w.Id());
      }
    }
  }

  /**
   A batch is accepted exactly if its conversations and entries have ids that are new to the store and to the batch, and
   its tasks and inputs have ids that no record of another table has.
   */
  lemma AcceptableByIds(t: Tables, writes: seq<Write>)
    ensures Acceptable(t, writes) <==> forall k :: 0 <= k < |writes| ==> MayWrite(t, writes, k)
  {
    forall k | 0 <= k < |writes| ensures Admissible(ApplyAll(t, writes[..k]), writes[k]) <==> MayWrite(t, writes, k) {
      AdmissibleByIds(t, writes, k);
    }
  }

  // ----- The store's own invariant --------------------------------------------------------------

  ghost predicate SeparateTables(t: Tables) {
    forall a, b, id :: Holds(t, a, id) && Holds(t, b, id) ==> a == b
  }

  ghost predicate KeyedById(t: Tables) {
    && (forall id <- t.conversations :: t.conversations[id].id == id)
    && (forall id <- t.entries :: t.entries[id].id == id)
    && (forall id <- t.tasks :: t.tasks[id].id == id)
    && (forall id <- t.inputs :: t.inputs[id].id == id)
  }

  ghost predicate NextIdIsFresh(t: Tables) {
    2 <= t.nextId && forall table, id :: Holds(t, table, id) ==> id < t.nextId
  }

  ghost predicate OrderListsConversations(t: Tables) {
    && (forall i, j :: 0 <= i < j < |t.order| ==> t.order[i] != t.order[j])
    && (forall id :: id in t.order <==> id in t.conversations)
  }

  ghost predicate SeqsRecorded(t: Tables) {
    && t.commitSeqs.Keys == t.entries.Keys
    && forall id <- t.commitSeqs :: t.commitSeqs[id] <= t.nextSeq
  }

  /** Every indexed pair names an input that carries it. */
  ghost predicate RequestsSound(t: Tables) {
    forall key <- t.requests :: t.requests[key] in t.inputs && t.inputs[t.requests[key]].Carries(key)
  }

  ghost predicate Consistent(t: Tables) {
    && SeparateTables(t) && KeyedById(t) && NextIdIsFresh(t)
    && OrderListsConversations(t) && SeqsRecorded(t) && RequestsSound(t)
  }

  lemma EmptyIsConsistent()
    ensures Consistent(EMPTY)
  {
  }

  /** What `Holds` says: tables stay separate and ids below the next one. */
  lemma ApplyKeepsIds(t: Tables, w: Write)
    requires SeparateTables(t) && NextIdIsFresh(t) && Admissible(t, w)
    ensures SeparateTables(Apply(t, w)) && NextIdIsFresh(Apply(t, w))
    ensures Apply(t, w).nextSeq == t.nextSeq && Apply(t, w).nextId >= t.nextId
  {
    var t' := Apply(t, w);
    forall table, id ensures Holds(t', table, id) <==> Holds(t, table, id) || (table == w.Table() && id == w.Id()) {
      HoldsAfterOne(t, w, table, id);
    }
  }

  lemma ApplyKeepsRecords(t: Tables, w: Write)
    requires KeyedById(t) && OrderListsConversations(t) && SeqsRecorded(t) && RequestsSound(t)
    requires w.ConversationWrite? ==> w.Id() !in t.conversations
    ensures KeyedById(Apply(t, w)) && OrderListsConversations(Apply(t, w))
    ensures SeqsRecorded(Apply(t, w)) && RequestsSound(Apply(t, w))
  {
    assert w.ConversationWrite? ==> w.Id() !in t.order;
  }

  lemma ApplyKeepsConsistent(t: Tables, w: Write)
    requires Consistent(t) && Admissible(t, w)
    ensures Consistent(Apply(t, w))
    ensures Apply(t, w).nextSeq == t.nextSeq && Apply(t, w).nextId >= t.nextId
  {
    assert w.ConversationWrite? ==> !Holds(t, ConversationTable, w.Id());
    ApplyKeepsIds(t, w);
    ApplyKeepsRecords(t, w);
  }

  lemma {:induction false} ApplyAllKeepsConsistent(t: Tables, writes: seq<Write>)
    requires Consistent(t) && Acceptable(t, writes)
    ensures Consistent(ApplyAll(t, writes))
    ensures ApplyAll(t, writes).nextSeq == t.nextSeq
    ensures ApplyAll(t, writes).nextId >= t.nextId
  {
    if writes != [] {
      var before, last := writes[..|writes| - 1], writes[|writes| - 1];
      AcceptablePrefix(t, writes, |before|);
      ApplyAllKeepsConsistent(t, before);
      assert Admissible(ApplyAll(t, before), last);
      ApplyKeepsConsistent(ApplyAll(t, before), last);
      assert ApplyAll(t, writes) == Apply(ApplyAll(t, before), last);
    }
  }

  lemma LastIsAdmissible(t: Tables, writes: seq<Write>)
    requires writes != [] && Acceptable(t, writes)
    ensures var before, last := writes[..|writes| - 1], writes[|writes| - 1];
      && Acceptable(t, before) && Admissible(ApplyAll(t, before), last)
      && ApplyAll(t, writes) == Apply(ApplyAll(t, before), last)
  {
    AcceptablePrefix(t, writes, |writes| - 1);
  }

  lemma AcceptablePrefix(t: Tables, writes: seq<Write>, k: nat)
    requires k <= |writes| && Acceptable(t, writes)
    ensures Acceptable(t, writes[..k])
  {
    forall i | 0 <= i < k ensures Admissible(ApplyAll(t, writes[..k][..i]), writes[..k][i]) {
      assert writes[..k][..i] == writes[..i];
    }
  }

  // ----- Runs of operations ---------------------------------------------------------------------

  datatype Operation = Commit(writes: seq<Write>) | MintId

  ghost function Perform(t: Tables, op: Operation): Tables {
    match op
    case Commit(writes) =>
      if Acceptable(t, writes) then ApplyAll(t, writes).(nextSeq := t.nextSeq + 1) else t
    case MintId =>
      if t.nextId <= MAX_SAFE_INTEGER then t.(nextId := t.nextId + 1) else t
  }

  ghost function Run(t: Tables, ops: seq<Operation>): Tables {
    if ops == [] then t
    else Perform(Run(t, ops[..|ops| - 1]), ops[|ops| - 1])
  }

  /** The ids handed out by `mintId` during a run, in order. */
  ghost function Minted(t: Tables, ops: seq<Operation>): seq<Id> {
    if ops == [] then []
    else
      var before := ops[..|ops| - 1];
      var nextId := Run(t, before).nextId;
      Minted(t, before) + if ops[|ops| - 1].MintId? && nextId <= MAX_SAFE_INTEGER then [nextId] else []
  }

  /** The same records under other counters. */
  predicate SameRecords(t: Tables, t': Tables) {
    && t'.conversations == t.conversations && t'.order == t.order && t'.entries == t.entries
    && t'.commitSeqs == t.commitSeqs && t'.tasks == t.tasks && t'.inputs == t.inputs && t'.requests == t.requests
  }

  /** Raising the counters alone changes no record. */
  lemma CountersKeepConsistent(t: Tables, t': Tables)
    requires Consistent(t) && SameRecords(t, t') && t.nextId <= t'.nextId && t.nextSeq <= t'.nextSeq
    ensures Consistent(t')
  {
    assert forall table, id :: Holds(t', table, id) <==> Holds(t, table, id);
  }

  lemma PerformKeepsConsistent(t: Tables, op: Operation)
    requires Consistent(t)
    ensures Consistent(Perform(t, op)) && Perform(t, op).nextId >= t.nextId
  {
    if op.Commit? && Acceptable(t, op.writes) {
      ApplyAllKeepsConsistent(t, op.writes);
      CountersKeepConsistent(ApplyAll(t, op.writes), Perform(t, op));
    } else {
      CountersKeepConsistent(t, Perform(t, op));
    }
  }

  /** The store's invariant holds after any run of accepted and rejected commits and of minted ids. */
  lemma {:induction false} RunKeepsConsistent(t: Tables, ops: seq<Operation>)
    requires Consistent(t)
    ensures Consistent(Run(t, ops)) && Run(t, ops).nextId >= t.nextId
  {
    if ops != [] {
      RunKeepsConsistent(t, ops[..|ops| - 1]);
      PerformKeepsConsistent(Run(t, ops[..|ops| - 1]), ops[|ops| - 1]);
    }
  }

  /** All that the accepted commits of a run wrote, in order. */
  ghost function AcceptedWrites(t: Tables, ops: seq<Operation>): seq<Write> {
    if ops == [] then []
    else
      var op := ops[|ops| - 1];
      AcceptedWrites(t, ops[..|ops| - 1])
      + if op.Commit? && Acceptable(Run(t, ops[..|ops| - 1]), op.writes) then op.writes else []
  }

  lemma PerformStores(t: Tables, op: Operation, id: Id)
    ensures Stores(t, if op.Commit? && Acceptable(t, op.writes) then op.writes else [], Perform(t, op), id)
  {
    if op.Commit? {
      BatchStores(t, op.writes, id);
    }
  }

  /** After any run each table holds, under each id, the last record that an accepted commit wrote there. */
  lemma {:induction false} RunStores(t: Tables, ops: seq<Operation>, id: Id)
    ensures Stores(t, AcceptedWrites(t, ops), Run(t, ops), id)
  {
    if ops != [] {
      var init, op := ops[..|ops| - 1], ops[|ops| - 1];
      RunStores(t, init, id);
      PerformStores(Run(t, init), op, id);
      StoresInTwo(t, AcceptedWrites(t, init), Run(t, init),
                  if op.Commit? && Acceptable(Run(t, init), op.writes) then op.writes else [], Run(t, ops), id);
    }
  }

  lemma PerformKeepsSeqs(t: Tables, op: Operation, id: Id)
    requires Consistent(t) && id in t.entries
    ensures Lookup(Perform(t, op).commitSeqs, id) == Lookup(t.commitSeqs, id) && id in Perform(t, op).entries
  {
    if op.Commit? && Acceptable(t, op.writes) {
      AcceptableByIds(t, op.writes);
      BatchNumbers(t, op.writes, id);
      HoldsAfter(t, op.writes, EntryTable, id);
      assert Holds(t, EntryTable, id) && Holds(ApplyAll(t, op.writes), EntryTable, id);
      forall i | 0 <= i < |op.writes| ensures SeqsUnder(op.writes, id, t.nextSeq)[i].None? {
        assert MayWrite(t, op.writes, i);
      }
    }
  }

  /** What holds at one point of a run and survives each step after it holds at every later point. */
  lemma {:induction false} HoldsFrom(holds: nat -> bool, from: nat, k: nat)
    requires from <= k && holds(from) && forall i: nat :: from <= i < k && holds(i) ==> holds(i + 1)
    ensures holds(k)
  {
    if from < k {
      HoldsFrom(holds, from, k - 1);
      assert holds(k - 1 + 1);
    }
  }

  lemma RunStep(t: Tables, ops: seq<Operation>, k: nat)
    requires k < |ops|
    ensures Run(t, ops[..k + 1]) == Perform(Run(t, ops[..k]), ops[k])
  {
    assert ops[..k + 1][..k] == ops[..k];
  }

  predicate Numbered(t: Tables, id: Id, number: nat) {
    id in t.entries && Lookup(t.commitSeqs, id) == Some(number)
  }

  /** `tables` are the tables of a run, point by point. */
  ghost predicate Passes(tables: nat -> Tables, ops: seq<Operation>) {
    forall k: nat :: k < |ops| ==> Consistent(tables(k)) && tables(k + 1) == Perform(tables(k), ops[k])
  }

  lemma {:induction false} StaysNumbered(tables: nat -> Tables, ops: seq<Operation>, from: nat, k: nat, id: Id,
                                         number: nat)
    requires Passes(tables, ops) && from <= k <= |ops| && Numbered(tables(from), id, number)
    ensures Numbered(tables(k), id, number)
  {
    if from < k {
      StaysNumbered(tables, ops, from, k - 1, id, number);
      assert tables(k - 1 + 1) == Perform(tables(k - 1), ops[k - 1]);
      PerformKeepsSeqs(tables(k - 1), ops[k - 1], id);
    }
  }

  lemma RunPasses(t: Tables, ops: seq<Operation>) returns (tables: nat -> Tables)
    requires Consistent(t)
    ensures Passes(tables, ops) && forall k: nat :: k <= |ops| ==> tables(k) == Run(t, ops[..k])
  {
    tables := (k: nat) => if k <= |ops| then Run(t, ops[..k]) else t;
    forall k: nat | k < |ops| ensures Consistent(tables(k)) && tables(k + 1) == Perform(tables(k), ops[k]) {
      RunKeepsConsistent(t, ops[..k]);
      RunStep(t, ops, k);
    }
  }

  lemma CommitIsNumbered(t: Tables, writes: seq<Write>, i: nat)
    requires Acceptable(t, writes) && i < |writes| && writes[i].EntryWrite?
    ensures Numbered(Perform(t, Commit(writes)), writes[i].entry.id, t.nextSeq)
  {
    CommitNumbers(t, writes, i);
    PerformedCommit(t, writes);
  }

  /** An entry keeps for ever the number of the commit that wrote it. */
  lemma RunNumbers(t: Tables, ops: seq<Operation>, n: nat, i: nat)
    requires Consistent(t) && n < |ops| && ops[n].Commit? && Acceptable(Run(t, ops[..n]), ops[n].writes)
    requires i < |ops[n].writes| && ops[n].writes[i].EntryWrite?
    ensures Numbered(Run(t, ops), ops[n].writes[i].entry.id, Run(t, ops[..n]).nextSeq)
  {
    var tables := RunPasses(t, ops);
    CommitIsNumbered(tables(n), ops[n].writes, i);
    StaysNumbered(tables, ops, n + 1, |ops|, ops[n].writes[i].entry.id, tables(n).nextSeq);
    assert ops[..|ops|] == ops;
  }

  lemma PerformedCommit(t: Tables, writes: seq<Write>)
    requires Acceptable(t, writes)
    ensures SameRecords(ApplyAll(t, writes), Perform(t, Commit(writes)))
  {
  }

  lemma CommitNumbers(t: Tables, writes: seq<Write>, i: nat)
    requires i < |writes| && writes[i].EntryWrite?
    ensures var t', id := ApplyAll(t, writes), writes[i].entry.id;
      id in t'.entries && id in t'.commitSeqs && t'.commitSeqs[id] == t.nextSeq
  {
    var id := writes[i].entry.id;
    BatchNumbers(t, writes, id);
    BatchStores(t, writes, id);
    assert SeqsUnder(writes, id, t.nextSeq)[i] == Some(t.nextSeq);
    assert EntriesUnder(writes, id)[i] == Some(writes[i].entry);
  }

  /** Minted ids are all different, never collide with an id stored before, and stay below the next one. */
  lemma {:induction false} MintedIdsAreFresh(t: Tables, ops: seq<Operation>)
    requires Consistent(t)
    ensures Ascending(Minted(t, ops))
    ensures forall id <- Minted(t, ops) :: t.nextId <= id < Run(t, ops).nextId
    ensures forall table, id :: Holds(t, table, id) ==> id !in Minted(t, ops)
  {
    if ops != [] {
      var earlier, op := ops[..|ops| - 1], ops[|ops| - 1];
      MintedIdsAreFresh(t, earlier);
      RunKeepsConsistent(t, earlier);
      var before := Run(t, earlier);
      PerformKeepsConsistent(before, op);
      var seen := Minted(t, earlier);
      assert forall i :: 0 <= i < |seen| ==> seen[i] in seen;
      assert Minted(t, ops) == seen || Minted(t, ops) == seen + [before.nextId];
    }
  }

  // ----- The request index ----------------------------------------------------------------------

  /** The input written last among those in `log` that carry `key`. */
  function LastCarrier(log: seq<Input>, key: (Id, string)): Option<Id> {
    if log == [] then None
    else if log[|log| - 1].Carries(key) then Some(log[|log| - 1].id)
    else LastCarrier(log[..|log| - 1], key)
  }

  /** The indexed input of `key` is its last carrier, as long as that input has not moved on to another key. */
  ghost predicate IndexExplained(t: Tables, log: seq<Input>) {
    && (forall id :: id in t.inputs <==> exists v <- log :: v.id == id)
    && forall key :: Lookup(t.requests, key) == Expected(t, log, key)
  }

  function Expected(t: Tables, log: seq<Input>, key: (Id, string)): Option<Id> {
    match LastCarrier(log, key)
    case None => None
    case Some(id) => if id in t.inputs && t.inputs[id].Carries(key) then Some(id) else None
  }

  function InputsOf(writes: seq<Write>): seq<Input> {
    if writes == [] then []
    else
      var last := writes[|writes| - 1];
      InputsOf(writes[..|writes| - 1]) + if last.InputWrite? then [last.input] else []
  }

  /** All inputs accepted during a run, oldest first. */
  ghost function InputLog(t: Tables, ops: seq<Operation>): seq<Input> {
    if ops == [] then []
    else
      var op := ops[|ops| - 1];
      InputLog(t, ops[..|ops| - 1])
      + if op.Commit? && Acceptable(Run(t, ops[..|ops| - 1]), op.writes) then InputsOf(op.writes) else []
  }

  lemma LastCarrierMore(log: seq<Input>, v: Input, key: (Id, string))
    ensures LastCarrier(log + [v], key) == if v.Carries(key) then Some(v.id) else LastCarrier(log, key)
  {
    assert (log + [v])[..|log|] == log;
  }

  /** One key after an input was written. */
  lemma InputExplainsKey(t: Tables, v: Input, log: seq<Input>, key: (Id, string))
    requires Consistent(t) && Lookup(t.requests, key) == Expected(t, log, key)
    ensures Lookup(Apply(t, InputWrite(v)).requests, key) == Expected(Apply(t, InputWrite(v)), log + [v], key)
  {
    LastCarrierMore(log, v, key);
    assert RequestsSound(t);
  }

  lemma InputExplains(t: Tables, v: Input, log: seq<Input>)
    requires Consistent(t) && IndexExplained(t, log)
    ensures IndexExplained(Apply(t, InputWrite(v)), log + [v])
  {
    var t', log' := Apply(t, InputWrite(v)), log + [v];
    forall id ensures id in t'.inputs <==> exists u <- log' :: u.id == id {
      assert v in log';
    }
    forall key ensures Lookup(t'.requests, key) == Expected(t', log', key) {
      InputExplainsKey(t, v, log, key);
    }
  }

  /** What touches neither inputs nor requests leaves the index explained. */
  lemma StillExplained(t: Tables, t': Tables, log: seq<Input>)
    requires IndexExplained(t, log) && t'.inputs == t.inputs && t'.requests == t.requests
    ensures IndexExplained(t', log)
  {
    forall key ensures Lookup(t'.requests, key) == Expected(t', log, key) {
      assert Lookup(t.requests, key) == Expected(t, log, key);
    }
  }

  lemma ApplyExplains(t: Tables, w: Write, log: seq<Input>)
    requires Consistent(t) && IndexExplained(t, log)
    ensures IndexExplained(Apply(t, w), log + if w.InputWrite? then [w.input] else [])
  {
    if w.InputWrite? {
      InputExplains(t, w.input, log);
    } else {
      assert log + [] == log;
      StillExplained(t, Apply(t, w), log);
    }
  }

  lemma InputsMore(log: seq<Input>, writes: seq<Write>)
    requires writes != []
    ensures var before, last := writes[..|writes| - 1], writes[|writes| - 1];
      log + InputsOf(writes) == log + InputsOf(before) + if last.InputWrite? then [last.input] else []
  {
  }

  lemma {:induction false} ApplyAllExplains(t: Tables, writes: seq<Write>, log: seq<Input>)
    requires Consistent(t) && IndexExplained(t, log) && Acceptable(t, writes)
    ensures IndexExplained(ApplyAll(t, writes), log + InputsOf(writes))
  {
    if writes == [] {
      assert log + [] == log;
    } else {
      var before, last := writes[..|writes| - 1], writes[|writes| - 1];
      LastIsAdmissible(t, writes);
      ApplyAllKeepsConsistent(t, before);
      ApplyAllExplains(t, before, log);
      ApplyExplains(ApplyAll(t, before), last, log + InputsOf(before));
      InputsMore(log, writes);
    }
  }

  /** After any run `inputByRequest` finds exactly the last input that carried the pair, if it still carries it. */
  lemma {:induction false} RunExplainsIndex(ops: seq<Operation>)
    ensures IndexExplained(Run(EMPTY, ops), InputLog(EMPTY, ops))
  {
    if ops != [] {
      var earlier, op := ops[..|ops| - 1], ops[|ops| - 1];
      RunExplainsIndex(earlier);
      EmptyIsConsistent();
      RunKeepsConsistent(EMPTY, earlier);
      var t, log := Run(EMPTY, earlier), InputLog(EMPTY, earlier);
      if op.Commit? && Acceptable(t, op.writes) {
        ApplyAllExplains(t, op.writes, log);
        StillExplained(ApplyAll(t, op.writes), Run(EMPTY, ops), log + InputsOf(op.writes));
      } else {
        assert log + [] == log;
        StillExplained(t, Run(EMPTY, ops), log);
      }
    }
  }

  /** Every input that carries a pair is the one its pair finds: with soundness, the index is the table's inverse. */
  ghost predicate RequestsComplete(t: Tables) {
    forall id, key :: id in t.inputs && t.inputs[id].Carries(key) ==> key in t.requests && t.requests[key] == id
  }

  /** No input other than `v` itself carries the pair that `v` brings. */
  ghost predicate BringsNewPair(t: Tables, v: Input) {
    forall id, key :: id in t.inputs && id != v.id && t.inputs[id].Carries(key) ==> !v.Carries(key)
  }

  /** A write keeps the index complete exactly when it does not share a pair with another input. */
  lemma CompleteExactlyWithoutSharing(t: Tables, v: Input)
    requires Consistent(t) && RequestsComplete(t)
    ensures RequestsComplete(Apply(t, InputWrite(v))) <==> BringsNewPair(t, v)
  {
    var t' := Apply(t, InputWrite(v));
    if BringsNewPair(t, v) {
      forall id, key | id in t'.inputs && t'.inputs[id].Carries(key)
        ensures key in t'.requests && t'.requests[key] == id
      {
        if id != v.id {
          assert t.inputs[id].Carries(key) && !v.Carries(key);
          assert key in t.requests && t.requests[key] == id;
        }
      }
    } else {
      var id, key :| id in t.inputs && id != v.id && t.inputs[id].Carries(key) && v.Carries(key);
      assert t'.inputs[id].Carries(key) && t'.requests[key] == v.id;
    }
  }

  ghost predicate NeverShares(t: Tables, writes: seq<Write>) {
    forall i :: 0 <= i < |writes| && writes[i].InputWrite? ==> BringsNewPair(ApplyAll(t, writes[..i]), writes[i].input)
  }

  lemma WriteKeepsComplete(t: Tables, w: Write)
    requires Consistent(t) && RequestsComplete(t) && Admissible(t, w)
    requires w.InputWrite? ==> BringsNewPair(t, w.input)
    ensures Consistent(Apply(t, w)) && RequestsComplete(Apply(t, w))
  {
    ApplyKeepsConsistent(t, w);
    if w.InputWrite? {
      CompleteExactlyWithoutSharing(t, w.input);
    }
  }

  lemma BatchKeepsComplete(t: Tables, writes: seq<Write>)
    requires Consistent(t) && RequestsComplete(t) && Acceptable(t, writes) && NeverShares(t, writes)
    ensures RequestsComplete(ApplyAll(t, writes))
  {
    var good := (u: Tables) => Consistent(u) && RequestsComplete(u);
    forall i | 0 <= i < |writes| && good(ApplyAll(t, writes[..i]))
      ensures good(Apply(ApplyAll(t, writes[..i]), writes[i]))
    {
      WriteKeepsComplete(ApplyAll(t, writes[..i]), writes[i]);
    }
    BatchInduction(good, t, writes, |writes|);
    assert writes[..|writes|] == writes;
  }

  ghost predicate NeverSharesInRun(ops: seq<Operation>) {
    forall n :: 0 <= n < |ops| && ops[n].Commit? && Acceptable(Run(EMPTY, ops[..n]), ops[n].writes) ==>
      NeverShares(Run(EMPTY, ops[..n]), ops[n].writes)
  }

  lemma PerformKeepsComplete(t: Tables, op: Operation)
    requires Consistent(t) && RequestsComplete(t)
    requires op.Commit? && Acceptable(t, op.writes) ==> NeverShares(t, op.writes)
    ensures RequestsComplete(Perform(t, op))
  {
    if op.Commit? && Acceptable(t, op.writes) {
      BatchKeepsComplete(t, op.writes);
    }
  }

  lemma {:induction false} RunKeepsComplete(ops: seq<Operation>)
    requires NeverSharesInRun(ops)
    ensures RequestsComplete(Run(EMPTY, ops))
  {
    if ops != [] {
      var last := |ops| - 1;
      assert NeverSharesInRun(ops[..last]) by {
        assert forall n :: 0 <= n < last ==> ops[..last][..n] == ops[..n] && ops[..last][n] == ops[n];
      }
      RunKeepsComplete(ops[..last]);
      EmptyIsConsistent();
      RunKeepsConsistent(EMPTY, ops[..last]);
      PerformKeepsComplete(Run(EMPTY, ops[..last]), ops[last]);
    }
  }

  /** If at no write two inputs share a pair, the index is the exact inverse of the input table after any run. */
  lemma IndexIsInverseWithoutSharing(ops: seq<Operation>, id: Id, key: (Id, string))
    requires NeverSharesInRun(ops)
    ensures var t := Run(EMPTY, ops);
      (key in t.requests && t.requests[key] == id) <==> (id in t.inputs && t.inputs[id].Carries(key))
  {
    EmptyIsConsistent();
    RunKeepsConsistent(EMPTY, ops);
    RunKeepsComplete(ops);
    CompleteIsInverse(Run(EMPTY, ops), id, key);
  }

  lemma CompleteIsInverse(t: Tables, id: Id, key: (Id, string))
    requires Consistent(t) && RequestsComplete(t)
    ensures (key in t.requests && t.requests[key] == id) <==> (id in t.inputs && t.inputs[id].Carries(key))
  {
    assert RequestsSound(t);
  }

  lemma RunMore(t: Tables, ops: seq<Operation>, op: Operation)
    ensures Run(t, ops + [op]) == Perform(Run(t, ops), op)
  {
    assert (ops + [op])[..|ops|] == ops;
  }

  lemma CommitOfOne(t: Tables, w: Write)
    requires Admissible(t, w)
    ensures Acceptable(t, [w]) && Perform(t, Commit([w])) == Apply(t, w).(nextSeq := t.nextSeq + 1)
  {
    assert [w][..0] == [];
    assert ApplyAll(t, []) == t;
    assert ApplyAll(t, [w]) == Apply(t, w);
  }

  const SHARING := Input(10, 1, Some("r"), "")
  const SHARED := Input(11, 1, Some("r"), "")

  /** Two inputs with one pair, and then the second gives it up. */
  const SHARED_THEN_DROPPED: seq<Operation> :=
    [] + [Commit([InputWrite(SHARING)])] + [Commit([InputWrite(SHARED)])]
        + [Commit([InputWrite(SHARED.(requestId := None))])]

  /** Once two inputs have shared a pair, the index can lose an input that still carries it: three accepted commits. */
  lemma SharedPairCanVanish()
    ensures forall n :: 0 <= n < |SHARED_THEN_DROPPED| ==>
      SHARED_THEN_DROPPED[n].Commit? && Acceptable(Run(EMPTY, SHARED_THEN_DROPPED[..n]), SHARED_THEN_DROPPED[n].writes)
    ensures var t := Run(EMPTY, SHARED_THEN_DROPPED);
      10 in t.inputs && t.inputs[10].Carries((1, "r")) && (1, "r") !in t.requests
  {
    var w0, w1, w2 := InputWrite(SHARING), InputWrite(SHARED), InputWrite(SHARED.(requestId := None));
    var e1 := [] + [Commit([w0])];
    var e2 := e1 + [Commit([w1])];
    CommitOfOne(EMPTY, w0);
    RunMore(EMPTY, [], Commit([w0]));
    CommitOfOne(Run(EMPTY, e1), w1);
    RunMore(EMPTY, e1, Commit([w1]));
    assert Run(EMPTY, e2).requests == map[(1, "r") := 11];
    CommitOfOne(Run(EMPTY, e2), w2);
    RunMore(EMPTY, e2, Commit([w2]));
    assert SHARED_THEN_DROPPED == e2 + [Commit([w2])];
    assert SHARED_THEN_DROPPED[..0] == [] && SHARED_THEN_DROPPED[..1] == e1 && SHARED_THEN_DROPPED[..2] == e2;
  }
}
