/**
 Tool loadout declarations: `declareToolChanges` of packages/agent/src/agent-loop.ts over the replay helpers
 of packages/ai/src/utils/transcript.ts. The transcript's system messages must replay to exactly the tools
 the runtime can execute.
 */
module ToolDeclarations {
  import opened Wrappers
  import opened AgentMessages

  // ----- Replay ---------------------------------------------------------------------------------

  /** The position of a tool name in an insertion-ordered table; its length when absent. */
  function Position(tools: seq<Tool>, name: string): (at: nat)
    ensures at <= |tools|
    ensures at < |tools| ==> tools[at].name == name
    ensures forall i :: 0 <= i < at ==> tools[i].name != name
  {
    if tools == [] then 0
    else if tools[0].name == name then 0
    else 1 + Position(tools[1..], name)
  }

  /** `Map.set`: an existing key keeps its place. */
  function Put(tools: seq<Tool>, tool: Tool): seq<Tool> {
    var at := Position(tools, tool.name);
    if at < |tools| then tools[at := tool] else tools + [tool]
  }

  function PutAll(tools: seq<Tool>, added: seq<Tool>): seq<Tool> {
    if added == [] then tools
    else Put(PutAll(tools, added[..|added| - 1]), added[|added| - 1])
  }

  function Without(tools: seq<Tool>, names: seq<string>): seq<Tool> {
    if tools == [] then []
    else (if tools[0].name in names then [] else [tools[0]]) + Without(tools[1..], names)
  }

  function ReplayOne(tools: seq<Tool>, message: Message): seq<Tool> {
    match message
    case System(_, added, removed) => PutAll(Without(tools, removed), added)
    case _ => tools
  }

  /** `getCurrentTools`, starting from an earlier table. */
  function Replay(tools: seq<Tool>, messages: seq<Message>): seq<Tool> {
    if messages == [] then tools
    else ReplayOne(Replay(tools, messages[..|messages| - 1]), messages[|messages| - 1])
  }

  function CurrentTools(messages: seq<Message>): seq<Tool> {
    Replay([], messages)
  }

  lemma {:induction false} ReplayAppend(tools: seq<Tool>, a: seq<Message>, b: seq<Message>)
    ensures Replay(tools, a + b) == Replay(Replay(tools, a), b)
  {
    if b == [] {
      assert a + b == a;
    } else {
      assert (a + b)[..|a + b| - 1] == a + b[..|b| - 1];
      ReplayAppend(tools, a, b[..|b| - 1]);
    }
  }

  // ----- Tables as maps -------------------------------------------------------------------------

  /** What a list of tools says about each name; the last one wins. */
  function Table(tools: seq<Tool>): map<string, Tool> {
    if tools == [] then map[]
    else Table(tools[..|tools| - 1])[tools[|tools| - 1].name := tools[|tools| - 1]]
  }

  ghost predicate UniqueNames(tools: seq<Tool>) {
    forall i, j :: 0 <= i < j < |tools| ==> tools[i].name != tools[j].name
  }

  /** Two tools of the same name are the same tool. */
  ghost predicate NoConflicts(tools: seq<Tool>) {
    forall i, j :: 0 <= i < |tools| && 0 <= j < |tools| && tools[i].name == tools[j].name ==> tools[i] == tools[j]
  }

  lemma {:induction false} TableDomain(tools: seq<Tool>, name: string)
    ensures name in Table(tools) <==> exists i :: 0 <= i < |tools| && tools[i].name == name
    ensures name in Table(tools) ==> Table(tools)[name].name == name && Table(tools)[name] in tools
  {
    if tools != [] {
      TableDomain(tools[..|tools| - 1], name);
    }
  }

  lemma {:induction false} TableLookup(tools: seq<Tool>, i: nat)
    requires i < |tools|
    requires forall j :: i < j < |tools| && tools[j].name == tools[i].name ==> tools[j] == tools[i]
    ensures tools[i].name in Table(tools) && Table(tools)[tools[i].name] == tools[i]
  {
    if i < |tools| - 1 {
      TableLookup(tools[..|tools| - 1], i);
    }
  }

  lemma {:induction false} TableIsContents(tools: seq<Tool>, m: map<string, Tool>)
    requires NoConflicts(tools)
    requires forall name :: name in m <==> exists i :: 0 <= i < |tools| && tools[i].name == name
    requires forall i :: 0 <= i < |tools| ==> tools[i].name in m && m[tools[i].name] == tools[i]
    ensures Table(tools) == m
  {
    forall name ensures name in Table(tools) <==> name in m {
      TableDomain(tools, name);
    }
    forall name | name in m ensures Table(tools)[name] == m[name] {
      var i :| 0 <= i < |tools| && tools[i].name == name;
      TableLookup(tools, i);
    }
  }

  lemma PutTable(tools: seq<Tool>, tool: Tool)
    requires UniqueNames(tools)
    ensures UniqueNames(Put(tools, tool))
    ensures Table(Put(tools, tool)) == Table(tools)[tool.name := tool]
  {
    var at, r := Position(tools, tool.name), Put(tools, tool);
    if at < |tools| {
      forall i | 0 <= i < |r| ensures r[i].name in Table(tools) && Table(tools)[tool.name := tool][r[i].name] == r[i] {
        TableLookup(tools, i);
      }
      forall name ensures name in Table(tools) <==> exists i :: 0 <= i < |r| && r[i].name == name {
        TableDomain(tools, name);
        SameNames(tools, r, name);
      }
      TableLookup(tools, at);
      TableIsContents(r, Table(tools)[tool.name := tool]);
    }
  }

  lemma SameNames(tools: seq<Tool>, other: seq<Tool>, name: string)
    requires |other| == |tools| && forall i :: 0 <= i < |tools| ==> other[i].name == tools[i].name
    ensures (exists i :: 0 <= i < |tools| && tools[i].name == name)
       <==> exists i :: 0 <= i < |other| && other[i].name == name
  {
    if i :| 0 <= i < |tools| && tools[i].name == name {
      assert other[i].name == name;
    }
    if i :| 0 <= i < |other| && other[i].name == name {
      assert tools[i].name == name;
    }
  }

  lemma {:induction false} PutAllTable(tools: seq<Tool>, added: seq<Tool>)
    requires UniqueNames(tools)
    ensures UniqueNames(PutAll(tools, added))
    ensures Table(PutAll(tools, added)) == Table(tools) + Table(added)
  {
    if added != [] {
      var before, last := added[..|added| - 1], added[|added| - 1];
      PutAllTable(tools, before);
      PutTable(PutAll(tools, before), last);
      UpdateAfterMerge(Table(tools), Table(before), last.name, last);
    }
  }

  lemma UpdateAfterMerge(m: map<string, Tool>, n: map<string, Tool>, name: string, tool: Tool)
    ensures (m + n)[name := tool] == m + n[name := tool]
  {
  }

  lemma {:induction false} WithoutSelects(tools: seq<Tool>, names: seq<string>)
    ensures forall x :: x in Without(tools, names) <==> x in tools && x.name !in names
  {
    if tools != [] {
      WithoutSelects(tools[1..], names);
      assert tools == [tools[0]] + tools[1..];
    }
  }

  lemma {:induction false} WithoutUnique(tools: seq<Tool>, names: seq<string>)
    requires UniqueNames(tools)
    ensures UniqueNames(Without(tools, names))
  {
    if tools != [] {
      WithoutUnique(tools[1..], names);
      var rest := Without(tools[1..], names);
      forall i | 0 <= i < |rest| ensures rest[i].name != tools[0].name {
        WithoutSelects(tools[1..], names);
        assert rest[i] in rest;
      }
    }
  }

  lemma WithoutTable(tools: seq<Tool>, names: seq<string>)
    requires UniqueNames(tools)
    ensures UniqueNames(Without(tools, names))
    ensures Table(Without(tools, names)) == Table(tools) - (set n <- names)
  {
    var r, m := Without(tools, names), Table(tools) - (set n <- names);
    WithoutUnique(tools, names);
    WithoutSelects(tools, names);
    forall i | 0 <= i < |r| ensures r[i].name in m && m[r[i].name] == r[i] {
      assert r[i] in r;
      var j :| 0 <= j < |tools| && tools[j] == r[i];
      TableLookup(tools, j);
    }
    forall name ensures name in m <==> exists i :: 0 <= i < |r| && r[i].name == name {
      TableDomain(tools, name);
      if name in m {
        assert Table(tools)[name] in r;
      }
    }
    TableIsContents(r, m);
  }

  lemma {:induction false} ReplayUnique(tools: seq<Tool>, messages: seq<Message>)
    requires UniqueNames(tools)
    ensures UniqueNames(Replay(tools, messages))
  {
    if messages != [] {
      var before, last := Replay(tools, messages[..|messages| - 1]), messages[|messages| - 1];
      ReplayUnique(tools, messages[..|messages| - 1]);
      if last.System? {
        WithoutUnique(before, last.toolsRemoved);
        PutAllTable(Without(before, last.toolsRemoved), last.toolsAdded);
      }
    }
  }

  // ----- What a transcript declares -------------------------------------------------------------

  /** Tool x is the last of its name in a list. */
  ghost predicate LastOfName(tools: seq<Tool>, x: Tool) {
    exists j :: 0 <= j < |tools| && tools[j] == x && forall k :: j < k < |tools| ==> tools[k].name != x.name
  }

  ghost predicate Defines(table: map<string, Tool>, x: Tool) {
    x.name in table && table[x.name] == x
  }

  lemma {:induction false} TableMeans(tools: seq<Tool>, x: Tool)
    ensures Defines(Table(tools), x) <==> LastOfName(tools, x)
  {
    if tools != [] {
      var init, last := tools[..|tools| - 1], tools[|tools| - 1];
      TableMeans(init, x);
      assert forall j :: 0 <= j < |init| ==> tools[j] == init[j];
      if last.name == x.name {
        assert LastOfName(tools, x) <==> last == x by {
          assert tools[|tools| - 1] == last;
        }
      } else {
        SameLast(tools, init, x);
      }
    }
  }

  lemma SameLast(tools: seq<Tool>, init: seq<Tool>, x: Tool)
    requires tools != [] && init == tools[..|tools| - 1] && tools[|tools| - 1].name != x.name
    ensures LastOfName(tools, x) <==> LastOfName(init, x)
  {
    if LastOfName(init, x) {
      var j :| 0 <= j < |init| && init[j] == x && forall k :: j < k < |init| ==> init[k].name != x.name;
      assert tools[j] == x && forall k :: j < k < |tools| ==> tools[k].name != x.name;
    }
    if LastOfName(tools, x) {
      var j :| 0 <= j < |tools| && tools[j] == x && forall k :: j < k < |tools| ==> tools[k].name != x.name;
      assert init[j] == x && forall k :: j < k < |init| ==> init[k].name != x.name;
    }
  }

  /** A message says something about a tool name: it removes it or adds a tool of that name. */
  ghost predicate Mentions(message: Message, name: string) {
    message.System?
    && (name in message.toolsRemoved
        || exists j :: 0 <= j < |message.toolsAdded| && message.toolsAdded[j].name == name)
  }

  /** Message i adds tool x, as the last of its name, and no later message says anything about that name. */
  ghost predicate AddedAt(messages: seq<Message>, x: Tool, i: nat) {
    && i < |messages| && messages[i].System? && LastOfName(messages[i].toolsAdded, x)
    && forall k :: i < k < |messages| ==> !Mentions(messages[k], x.name)
  }

  lemma ReplayOneMeans(tools: seq<Tool>, message: Message, x: Tool)
    requires UniqueNames(tools) && message.System?
    ensures Defines(Table(ReplayOne(tools, message)), x)
      <==> LastOfName(message.toolsAdded, x) || (Defines(Table(tools), x) && !Mentions(message, x.name))
  {
    WithoutTable(tools, message.toolsRemoved);
    PutAllTable(Without(tools, message.toolsRemoved), message.toolsAdded);
    TableMeans(message.toolsAdded, x);
    TableDomain(message.toolsAdded, x.name);
  }

  /**
   What a transcript declares: a tool is declared exactly if some system message adds it and no later one removes its
   name or adds another tool of it.
   */
  lemma {:induction false} DeclaredMeans(messages: seq<Message>, x: Tool)
    ensures Defines(Table(CurrentTools(messages)), x) <==> exists i: nat :: AddedAt(messages, x, i)
  {
    if messages != [] {
      var init, last := messages[..|messages| - 1], messages[|messages| - 1];
      DeclaredMeans(init, x);
      ReplayUnique([], init);
      if last.System? {
        ReplayOneMeans(CurrentTools(init), last, x);
      }
      AddedMore(init, last, x);
      assert messages == init + [last];
    }
  }

  lemma AddedMore(init: seq<Message>, last: Message, x: Tool)
    ensures (exists i: nat :: AddedAt(init + [last], x, i))
      <==> (last.System? && LastOfName(last.toolsAdded, x))
           || ((exists i: nat :: AddedAt(init, x, i)) && !Mentions(last, x.name))
  {
    var all := init + [last];
    assert forall k :: 0 <= k < |init| ==> all[k] == init[k];
    if i: nat :| AddedAt(all, x, i) {
      if i < |init| {
        assert !Mentions(all[|init|], x.name);
        assert AddedAt(init, x, i);
      }
    }
    if last.System? && LastOfName(last.toolsAdded, x) {
      assert AddedAt(all, x, |init|);
    }
    if i: nat :| AddedAt(init, x, i) && !Mentions(last, x.name) {
      assert AddedAt(all, x, i);
    }
  }

  // ----- Changes between two tool states --------------------------------------------------------

  datatype Changes = Changes(added: seq<Tool>, removed: seq<string>) {
    predicate None() { added == [] && removed == [] }
  }

  function Differing(tools: seq<Tool>, other: map<string, Tool>): seq<Tool> {
    if tools == [] then []
    else
      var last := tools[|tools| - 1];
      Differing(tools[..|tools| - 1], other)
      + if last.name !in other || other[last.name] != last then [last] else []
  }

  function Names(tools: seq<Tool>): seq<string> {
    seq(|tools|, i requires 0 <= i < |tools| => tools[i].name)
  }

  /** `getToolStateChanges` */
  function ToolStateChanges(previous: seq<Tool>, current: seq<Tool>): Changes {
    Changes(Differing(current, Table(previous)), Names(Differing(previous, Table(current))))
  }

  lemma {:induction false} DifferingSelects(tools: seq<Tool>, other: map<string, Tool>)
    ensures forall x :: x in Differing(tools, other) <==> x in tools && (x.name !in other || other[x.name] != x)
  {
    if tools != [] {
      DifferingSelects(tools[..|tools| - 1], other);
      assert tools == tools[..|tools| - 1] + [tools[|tools| - 1]];
    }
  }

  /** A name whose last definition is new keeps that definition when only the differing tools are listed. */
  lemma {:induction false} DifferingTable(tools: seq<Tool>, other: map<string, Tool>, name: string)
    requires name in Table(tools) && (name !in other || other[name] != Table(tools)[name])
    ensures name in Table(Differing(tools, other)) && Table(Differing(tools, other))[name] == Table(tools)[name]
  {
    var before, last := tools[..|tools| - 1], tools[|tools| - 1];
    if last.name == name {
      assert Differing(tools, other)[..|Differing(tools, other)| - 1] == Differing(before, other);
    } else {
      DifferingTable(before, other, name);
      var rest := Differing(before, other);
      if last.name !in other || other[last.name] != last {
        assert Differing(tools, other)[..|Differing(tools, other)| - 1] == rest;
      } else {
        assert Differing(tools, other) == rest;
      }
    }
  }

  /** Replaying the changes between `previous` and `current` on `previous`. */
  function Updated(previous: seq<Tool>, changes: Changes): seq<Tool> {
    PutAll(Without(previous, changes.removed), changes.added)
  }

  /** No tool of `current` is shadowed by a later, different one that the transcript already declares. */
  ghost predicate Settles(previous: seq<Tool>, current: seq<Tool>) {
    forall i :: 0 <= i < |current| && current[i].name in Table(previous) && current[i].name in Table(current)
                && Table(previous)[current[i].name] == Table(current)[current[i].name]
                ==> current[i] == Table(current)[current[i].name]
  }

  /** What replaying the computed changes makes of the previous tools. */
  lemma UpdatedTable(previous: seq<Tool>, current: seq<Tool>)
    requires UniqueNames(previous)
    ensures var changes := ToolStateChanges(previous, current);
      && UniqueNames(Updated(previous, changes))
      && Table(Updated(previous, changes)) == Table(previous) - (set n <- changes.removed) + Table(changes.added)
  {
    var changes := ToolStateChanges(previous, current);
    WithoutTable(previous, changes.removed);
    PutAllTable(Without(previous, changes.removed), changes.added);
  }

  /** A name that is not current is gone, and one whose tool is new has it. */
  lemma UpdatedAt(previous: seq<Tool>, current: seq<Tool>, name: string)
    requires UniqueNames(previous)
    ensures var p, c := Table(previous), Table(current);
      var r := Table(Updated(previous, ToolStateChanges(previous, current)));
      && (name !in c ==> name !in r)
      && (name in c && (name !in p || p[name] != c[name]) ==> name in r && r[name] == c[name])
  {
    var p, c, changes := Table(previous), Table(current), ToolStateChanges(previous, current);
    UpdatedTable(previous, current);
    RemovedNames(previous, current, name);
    if name in c && (name !in p || p[name] != c[name]) {
      DifferingTable(current, p, name);
    } else if name !in c {
      TableDomain(changes.added, name);
      TableDomain(current, name);
      DifferingSelects(current, p);
    }
  }

  /** A name whose tool is unchanged keeps it, if nothing is shadowed. */
  lemma SettledAt(previous: seq<Tool>, current: seq<Tool>, name: string)
    requires UniqueNames(previous) && Settles(previous, current) && name in Table(current)
    ensures var r := Table(Updated(previous, ToolStateChanges(previous, current)));
      name in r && r[name] == Table(current)[name]
  {
    UpdatedAt(previous, current, name);
    if name in Table(previous) && Table(previous)[name] == Table(current)[name] {
      UpdatedTable(previous, current);
      RemovedNames(previous, current, name);
      NothingAdded(previous, current, name);
    }
  }

  /** Replaying the computed changes gives the executable tools exactly when nothing in them is shadowed. */
  lemma ChangesReachCurrent(previous: seq<Tool>, current: seq<Tool>)
    requires UniqueNames(previous)
    ensures UniqueNames(Updated(previous, ToolStateChanges(previous, current)))
    ensures Table(Updated(previous, ToolStateChanges(previous, current))) == Table(current)
      <==> Settles(previous, current)
  {
    UpdatedTable(previous, current);
    if Settles(previous, current) {
      var r := Table(Updated(previous, ToolStateChanges(previous, current)));
      forall name ensures name in r <==> name in Table(current) {
        UpdatedAt(previous, current, name);
        if name in Table(current) {
          SettledAt(previous, current, name);
        }
      }
      forall name | name in Table(current) ensures r[name] == Table(current)[name] {
        SettledAt(previous, current, name);
      }
    } else {
      NotSettled(previous, current);
    }
  }

  lemma NotSettled(previous: seq<Tool>, current: seq<Tool>)
    requires UniqueNames(previous) && !Settles(previous, current)
    ensures Table(Updated(previous, ToolStateChanges(previous, current))) != Table(current)
  {
    var p, c := Table(previous), Table(current);
    var i :| 0 <= i < |current| && current[i].name in p && current[i].name in c
             && p[current[i].name] == c[current[i].name] && current[i] != c[current[i].name];
    UpdatedTable(previous, current);
    RemovedNames(previous, current, current[i].name);
    ShadowedIsAdded(previous, current, i);
  }

  lemma RemovedNames(previous: seq<Tool>, current: seq<Tool>, name: string)
    requires UniqueNames(previous)
    ensures name in ToolStateChanges(previous, current).removed
       <==> name in Table(previous) && (name !in Table(current) || Table(current)[name] != Table(previous)[name])
  {
    var gone := Differing(previous, Table(current));
    DifferingSelects(previous, Table(current));
    TableDomain(previous, name);
    if name in Names(gone) {
      var i :| 0 <= i < |gone| && Names(gone)[i] == name;
      assert gone[i] in gone;
      var j :| 0 <= j < |previous| && previous[j] == gone[i];
      TableLookup(previous, j);
    }
    if name in Table(previous) && (name !in Table(current) || Table(current)[name] != Table(previous)[name]) {
      assert Table(previous)[name] in gone;
      var i :| 0 <= i < |gone| && gone[i] == Table(previous)[name];
      assert Names(gone)[i] == name;
    }
  }

  lemma NothingAdded(previous: seq<Tool>, current: seq<Tool>, name: string)
    requires Settles(previous, current) && name in Table(previous) && name in Table(current)
    requires Table(previous)[name] == Table(current)[name]
    ensures name !in Table(ToolStateChanges(previous, current).added)
  {
    var added := ToolStateChanges(previous, current).added;
    TableDomain(added, name);
    DifferingSelects(current, Table(previous));
  }

  lemma ShadowedIsAdded(previous: seq<Tool>, current: seq<Tool>, i: nat)
    requires i < |current| && current[i].name in Table(previous) && current[i].name in Table(current)
    requires Table(previous)[current[i].name] == Table(current)[current[i].name] != current[i]
    ensures var name, added := current[i].name, ToolStateChanges(previous, current).added;
            name in Table(added) && Table(added)[name] != Table(current)[name]
  {
    var name, added := current[i].name, ToolStateChanges(previous, current).added;
    DifferingSelects(current, Table(previous));
    assert current[i] in added;
    var j :| 0 <= j < |added| && added[j] == current[i];
    TableDomain(added, name);
  }

  // ----- Declaring the changes ------------------------------------------------------------------

  function Declarations(tools: seq<AgentTool>): seq<Tool> {
    seq(|tools|, i requires 0 <= i < |tools| => tools[i].declaration)
  }

  /** The last system message of a list. */
  function LastSystem(messages: seq<Message>): (k: Option<nat>)
    ensures k.Some? ==> k.value < |messages| && messages[k.value].System?
    ensures forall i :: (if k.Some? then k.value + 1 else 0) <= i < |messages| ==> !messages[i].System?
  {
    if messages == [] then None
    else if messages[|messages| - 1].System? then Some(|messages| - 1)
    else LastSystem(messages[..|messages| - 1])
  }

  function FirstOther(messages: seq<Message>): (k: nat)
    ensures k <= |messages| && forall i :: 0 <= i < k ==> messages[i].System?
  {
    if messages == [] || !messages[0].System? then 0 else 1 + FirstOther(messages[1..])
  }

  function WithToolChanges(message: Message, changes: Changes): Message
    requires message.System?
  {
    System(message.content, changes.added, changes.removed)
  }

  const NO_CHANGES := Changes([], [])

  /** The pending messages as they count before declaring: the last system message's own tool fields are only intent. */
  function Baseline(pending: seq<Message>): seq<Message> {
    match LastSystem(pending)
    case None => pending
    case Some(k) => pending[k := WithToolChanges(pending[k], NO_CHANGES)]
  }

  /** The tools the transcript declares before the change. */
  function Previous(context: Context, pending: seq<Message>): seq<Tool> {
    CurrentTools(context.messages + Baseline(pending))
  }

  /** `declareToolChanges` */
  function Declare(context: Context, pending: seq<Message>): seq<Message> {
    var changes := ToolStateChanges(Previous(context, pending), Declarations(context.tools));
    match LastSystem(pending)
    case Some(k) =>
      if changes.None() && pending[k].toolsAdded == [] && pending[k].toolsRemoved == [] then pending
      else Baseline(pending)[k := WithToolChanges(pending[k], changes)]
    case None =>
      if changes.None() then pending
      else
        var index := FirstOther(pending);
        pending[..index] + [WithToolChanges(System("", [], []), changes)] + pending[index..]
  }

  lemma {:induction false} ReplayOthers(tools: seq<Tool>, messages: seq<Message>)
    requires forall i :: 0 <= i < |messages| ==> !messages[i].System?
    ensures Replay(tools, messages) == tools
  {
    if messages != [] {
      ReplayOthers(tools, messages[..|messages| - 1]);
    }
  }

  lemma {:induction false} WithoutNothing(tools: seq<Tool>)
    ensures Without(tools, []) == tools
  {
    if tools != [] {
      WithoutNothing(tools[1..]);
    }
  }

  /** A system message followed only by other messages replays its own changes on what came before it. */
  lemma ReplayAround(before: seq<Message>, message: Message, after: seq<Message>)
    requires message.System? && forall i :: 0 <= i < |after| ==> !after[i].System?
    ensures CurrentTools(before + [message] + after)
         == Updated(CurrentTools(before), Changes(message.toolsAdded, message.toolsRemoved))
  {
    ReplayAppend([], before + [message], after);
    ReplayOthers(CurrentTools(before + [message]), after);
    assert (before + [message])[..|before|] == before;
  }

  lemma DeclareInPlace(context: Context, pending: seq<Message>, k: nat)
    requires LastSystem(pending) == Some(k)
    ensures var before := CurrentTools(context.messages + pending[..k]);
            var declared := Declare(context, pending);
            && Previous(context, pending) == before
            && declared[k].System?
            && CurrentTools(context.messages + declared)
                == Updated(before, Changes(declared[k].toolsAdded, declared[k].toolsRemoved))
  {
    var bare, declared := Baseline(pending), Declare(context, pending);
    assert bare[..k] == pending[..k] && declared[..k] == pending[..k];
    ReplayAt(context.messages, bare, k);
    WithoutNothing(CurrentTools(context.messages + pending[..k]));
    ReplayAt(context.messages, declared, k);
  }

  lemma ReplayAt(messages: seq<Message>, more: seq<Message>, k: nat)
    requires k < |more| && more[k].System? && forall i :: k < i < |more| ==> !more[i].System?
    ensures CurrentTools(messages + more)
         == Updated(CurrentTools(messages + more[..k]), Changes(more[k].toolsAdded, more[k].toolsRemoved))
  {
    assert messages + more == (messages + more[..k]) + [more[k]] + more[k + 1..];
    ReplayAround(messages + more[..k], more[k], more[k + 1..]);
  }

  /** With no system message pending, what is declared is one message in front, or nothing. */
  lemma DeclaredInFront(context: Context, pending: seq<Message>)
    requires LastSystem(pending) == None && Declare(context, pending) != pending
    ensures var declared := Declare(context, pending);
      |declared| == |pending| + 1 && declared[0].System? && declared == [declared[0]] + pending
  {
    assert FirstOther(pending) == 0;
  }

  lemma DeclareInFront(context: Context, pending: seq<Message>)
    requires LastSystem(pending) == None
    ensures Previous(context, pending) == CurrentTools(context.messages)
    ensures var declared := Declare(context, pending);
            declared != pending ==>
              && |declared| == |pending| + 1 && declared[0].System? && declared == [declared[0]] + pending
              && CurrentTools(context.messages + declared)
                 == Updated(CurrentTools(context.messages), Changes(declared[0].toolsAdded, declared[0].toolsRemoved))
  {
    ReplayAppend([], context.messages, pending);
    ReplayOthers(CurrentTools(context.messages), pending);
    if Declare(context, pending) != pending {
      DeclaredInFront(context, pending);
      ReplayInFront(context.messages, Declare(context, pending), pending);
    }
  }

  lemma ReplayInFront(messages: seq<Message>, declared: seq<Message>, pending: seq<Message>)
    requires declared != [] && declared[0].System? && declared == [declared[0]] + pending
    requires forall i :: 0 <= i < |pending| ==> !pending[i].System?
    ensures CurrentTools(messages + declared)
         == Updated(CurrentTools(messages), Changes(declared[0].toolsAdded, declared[0].toolsRemoved))
  {
    ReplayAt(messages, declared, 0);
    assert messages + declared[..0] == messages;
  }

  /** After declaring, the transcript replays to the previous tools with the computed changes applied. */
  lemma DeclareReplays(context: Context, pending: seq<Message>)
    ensures var previous := Previous(context, pending);
            CurrentTools(context.messages + Declare(context, pending))
            == Updated(previous, ToolStateChanges(previous, Declarations(context.tools)))
    ensures UniqueNames(Previous(context, pending))
  {
    var previous := Previous(context, pending);
    ReplayUnique([], context.messages + Baseline(pending));
    WithoutNothing(previous);
    if LastSystem(pending).Some? {
      DeclareInPlace(context, pending, LastSystem(pending).value);
    } else {
      DeclareInFront(context, pending);
    }
  }

  /** The transcript declares exactly the tools that can be executed. */
  ghost predicate DeclaresTools(messages: seq<Message>, tools: seq<AgentTool>) {
    Table(CurrentTools(messages)) == Table(Declarations(tools))
  }

  /**
   Whatever is pending and whatever was declared before, afterwards the transcript declares exactly the
   executable tools if and only if no executable tool is shadowed by a different one of the same name that
   the transcript already declares.
   */
  lemma DeclareExact(context: Context, pending: seq<Message>)
    ensures DeclaresTools(context.messages + Declare(context, pending), context.tools)
       <==> Settles(Previous(context, pending), Declarations(context.tools))
  {
    DeclareReplays(context, pending);
    ChangesReachCurrent(Previous(context, pending), Declarations(context.tools));
  }

  /** In particular it always does when tools of the same name are the same tool. */
  lemma DeclareExactWithoutConflicts(context: Context, pending: seq<Message>)
    requires NoConflicts(Declarations(context.tools))
    ensures DeclaresTools(context.messages + Declare(context, pending), context.tools)
  {
    var tools := Declarations(context.tools);
    forall i | 0 <= i < |tools| ensures tools[i].name in Table(tools) && tools[i] == Table(tools)[tools[i].name] {
      TableLookup(tools, i);
    }
    DeclareExact(context, pending);
  }

  /** Once the transcript declares the tools, declaring again adds nothing exactly when no two of them conflict. */
  lemma DeclareAgain(context: Context)
    requires DeclaresTools(context.messages, context.tools)
    ensures Declare(context, []) == [] <==> NoConflicts(Declarations(context.tools))
  {
    var tools, previous := Declarations(context.tools), CurrentTools(context.messages);
    assert context.messages + [] == context.messages;
    assert Previous(context, []) == previous;
    ReplayUnique([], context.messages);
    var changes := ToolStateChanges(previous, tools);
    if changes.removed != [] {
      assert changes.removed[0] in changes.removed;
      RemovedNames(previous, tools, changes.removed[0]);
    }
    AddedOnlyOnConflict(tools);
    assert changes.None() <==> Differing(tools, Table(tools)) == [];
  }

  /** Compared with the table it defines, a list differs only where a tool is shadowed by another of its name. */
  lemma AddedOnlyOnConflict(tools: seq<Tool>)
    ensures Differing(tools, Table(tools)) == [] <==> NoConflicts(tools)
  {
    var added := Differing(tools, Table(tools));
    DifferingSelects(tools, Table(tools));
    if NoConflicts(tools) {
      if added != [] {
        assert added[0] in added;
        var i :| 0 <= i < |tools| && tools[i] == added[0];
        TableLookup(tools, i);
      }
    } else {
      var i, j :| 0 <= i < |tools| && 0 <= j < |tools| && tools[i].name == tools[j].name && tools[i] != tools[j];
      TableDomain(tools, tools[i].name);
      var k := if Table(tools)[tools[i].name] != tools[i] then i else j;
      assert tools[k] in tools;
      assert tools[k] in added;
    }
  }

  /** Conflicting tools break the declaration: even from an empty transcript the second request has the wrong tools. */
  lemma ConflictsOscillate(tools: seq<AgentTool>)
    requires !NoConflicts(Declarations(tools))
    ensures var first := Declare(Context([], tools), []);
            && DeclaresTools(first, tools)
            && !DeclaresTools(first + Declare(Context(first, tools), []), tools)
  {
    DeclareFromNothing(tools);
    DeclareSecondTime(tools, Declare(Context([], tools), []));
  }

  lemma DeclareFromNothing(tools: seq<AgentTool>)
    ensures DeclaresTools(Declare(Context([], tools), []), tools)
  {
    var first := Declare(Context([], tools), []);
    DeclareExact(Context([], tools), []);
    assert [] + first == first;
    assert Previous(Context([], tools), []) == [] by { assert CurrentTools([] + []) == []; }
    assert Settles([], Declarations(tools));
  }

  lemma DeclareSecondTime(tools: seq<AgentTool>, first: seq<Message>)
    requires !NoConflicts(Declarations(tools)) && DeclaresTools(first, tools)
    ensures !DeclaresTools(first + Declare(Context(first, tools), []), tools)
  {
    var second := Context(first, tools);
    DeclareExact(second, []);
    assert Previous(second, []) == CurrentTools(first) by { assert first + [] == first; }
    ConflictNeverSettles(CurrentTools(first), Declarations(tools));
  }

  lemma ConflictNeverSettles(previous: seq<Tool>, tools: seq<Tool>)
    requires !NoConflicts(tools) && Table(previous) == Table(tools)
    ensures !Settles(previous, tools)
  {
    var i, j :| 0 <= i < |tools| && 0 <= j < |tools| && tools[i].name == tools[j].name && tools[i] != tools[j];
    TableDomain(tools, tools[i].name);
    var k := if Table(tools)[tools[i].name] != tools[i] then i else j;
    assert tools[k] != Table(tools)[tools[k].name];
  }

  /**
   Declaring rewrites nothing but the tool fields of the last pending system message, or adds one bare message in front.
   */
  lemma DeclarePreserves(context: Context, pending: seq<Message>)
    ensures var declared := Declare(context, pending);
            match LastSystem(pending)
            case Some(k) =>
              && |declared| == |pending|
              && (forall i :: 0 <= i < |pending| && i != k ==> declared[i] == pending[i])
              && declared[k].System? && declared[k].content == pending[k].content
            case None =>
              declared == pending || exists m: Message :: m.System? && m.content == "" && declared == [m] + pending
  {
    if LastSystem(pending).None? {
      DeclareInFront(context, pending);
      assert FirstOther(pending) == 0;
    }
  }
}
