/**
 What createProvider publishes (packages/ai/src/models.ts): the store is read, the cached models are restored, and
 models fetched from the network are persisted. Each phase of a refresh is a small machine beside the protocol of
 ModelRefresh, which it only reaches by publishing.
 */
module ProviderRefreshes {
  import opened Wrappers
  import opened ModelRefresh

  /** How far refreshModels has come in one phase; `k` is the publication it waits for. */
  datatype Progress =
    | Reading
    | Read(stored: Option<Catalog>)
    | Restoring(k: nat)
    | Fetching
    | Publishing(k: nat)
    | Ended

  datatype Phase = Phase(provider: ProviderId, generation: nat, signal: Signal, allowNetwork: bool, progress: Progress)

  datatype Joint = Joint(models: State, phases: seq<Phase>)

  /** `Protocol` is a step of the protocol other than a publication; `Fetched(j, None)` is a fetch that threw. */
  datatype Turn =
    | Protocol(e: Event)
    | StartPhase(id: ProviderId, generation: nat, signal: Signal, allowNetwork: bool)
    | StoreReads(j: nat)
    | RefreshModels(j: nat)
    | RestoreReturns(j: nat)
    | Fetched(j: nat, models: Option<Catalog>)
    | PublishReturns(j: nat)
    | AbortPhase(j: nat)

  // ----- The code -------------------------------------------------------------------------------

  /** The phase without network of the refresh has ended. */
  predicate OfflineEnded(phases: seq<Phase>, id: ProviderId, generation: nat) {
    exists i :: 0 <= i < |phases| && phases[i].provider == id && phases[i].generation == generation
                && !phases[i].allowNetwork && phases[i].progress.Ended?
  }

  /** A refresh begins with the phase without network; the other one follows unless the signal is aborted. */
  predicate MayStart(s: Joint, id: ProviderId, generation: nat, signal: Signal, allowNetwork: bool) {
    && (id, generation) in s.models.owners
    && (allowNetwork ==> signal !in s.models.aborted && OfflineEnded(s.phases, id, generation))
  }

  /** What follows the restored models: the network, if it is allowed. */
  function Onward(s: State, p: Phase): Progress {
    if !p.allowNetwork || p.signal in s.aborted then Ended else Fetching
  }

  function PublicationOf(p: Phase, persist: Persist, update: Catalog): Event {
    Publish(p.provider, p.generation, p.signal, persist, Some(update))
  }

  /** The step of the protocol that a turn takes, if any. */
  function EventOf(s: Joint, t: Turn): Option<Event> {
    match t
    case Protocol(e) => if e.Publish? then None else Some(e)
    case RefreshModels(j) =>
      if j < |s.phases| && s.phases[j].progress.Read? && s.phases[j].progress.stored.Some? then
        Some(PublicationOf(s.phases[j], Keep, Restored(s.phases[j].provider, s.phases[j].progress.stored.value)))
      else None
    case Fetched(j, models) =>
      if j < |s.phases| && s.phases[j].progress.Fetching? && models.Some?
          && s.phases[j].signal !in s.models.aborted then
        Some(PublicationOf(s.phases[j], Write(models.value), models.value))
      else None
    case _ => None
  }

  /** Whether publication k is back, with what answer. */
  function Answer(s: State, k: nat): Option<bool> {
    if k < |s.publications| && s.publications[k].stage.Settled? then Some(s.publications[k].stage.published) else None
  }

  function ProgressOf(s: State, p: Phase, t: Turn): Progress {
    match t
    case StoreReads(_) => if p.progress.Reading? then Read(Lookup(s.store, p.provider)) else p.progress
    case RefreshModels(_) =>
      if !p.progress.Read? then p.progress
      else if p.progress.stored.Some? then Restoring(|s.publications|)
      else Onward(s, p)
    case RestoreReturns(_) =>
      if !p.progress.Restoring? || Answer(s, p.progress.k).None? then p.progress
      else if Answer(s, p.progress.k).value then Onward(s, p)
      else Ended
    case Fetched(_, models) =>
      if !p.progress.Fetching? then p.progress
      else if models.None? || p.signal in s.aborted then Ended
      else Publishing(|s.publications|)
    case PublishReturns(_) =>
      if p.progress.Publishing? && Answer(s, p.progress.k).Some? then Ended else p.progress
    case AbortPhase(_) => if p.signal in s.aborted then Ended else p.progress
    case _ => p.progress
  }

  function PhasesAfter(s: Joint, t: Turn): seq<Phase> {
    match t
    case Protocol(_) => s.phases
    case StartPhase(id, generation, signal, allowNetwork) =>
      if MayStart(s, id, generation, signal, allowNetwork)
      then s.phases + [Phase(id, generation, signal, allowNetwork, Reading)]
      else s.phases
    case _ =>
      if t.j < |s.phases|
      then s.phases[t.j := s.phases[t.j].(progress := ProgressOf(s.models, s.phases[t.j], t))]
      else s.phases
  }

  function Take(s: Joint, t: Turn): Joint {
    Joint(match EventOf(s, t) case None => s.models case Some(e) => Step(s.models, e), PhasesAfter(s, t))
  }

  function Play(turns: seq<Turn>): Joint {
    if turns == [] then Joint(EMPTY, []) else Take(Play(turns[..|turns| - 1]), turns[|turns| - 1])
  }

  /** The steps of the protocol that the turns take. */
  function EventsOf(turns: seq<Turn>): seq<Event> {
    if turns == [] then []
    else
      var init := turns[..|turns| - 1];
      EventsOf(init) + match EventOf(Play(init), turns[|turns| - 1]) case None => [] case Some(e) => [e]
  }

  // ----- The protocol's view --------------------------------------------------------------------

  lemma RunOneMore(events: seq<Event>, e: Event)
    ensures Run(events + [e]) == Step(Run(events), e)
  {
    assert (events + [e])[..|events|] == events;
  }

  /** The phases and the protocol together are a run of the protocol. */
  lemma {:induction false} PlayIsRun(turns: seq<Turn>)
    ensures Play(turns).models == Run(EventsOf(turns))
  {
    if turns != [] {
      var init, t := turns[..|turns| - 1], turns[|turns| - 1];
      PlayIsRun(init);
      match EventOf(Play(init), t) {
        case None => assert EventsOf(turns) == EventsOf(init);
        case Some(e) => RunOneMore(EventsOf(init), e);
      }
    }
  }

  // ----- Only genuine publications --------------------------------------------------------------

  /** What a phase has read was in the store. */
  predicate WasRead(held: set<(ProviderId, Catalog)>, p: Phase) {
    p.progress.Read? && p.progress.stored.Some? ==> (p.provider, p.progress.stored.value) in held
  }

  ghost predicate AllRead(phases: seq<Phase>, held: set<(ProviderId, Catalog)>) {
    forall j :: 0 <= j < |phases| ==> WasRead(held, phases[j])
  }

  lemma FinishHolds(s: State, k: nat)
    requires k < |s.publications|
    ensures Finish(s, k).held == s.held
  {
    var p := s.publications[k];
    if Current(s, p) && p.update.Some? && (p.provider, p.generation) in s.owners {
      assert InStage(s, k, Settled(true)).held == s.held;
    } else {
      assert InStage(s, k, Settled(Current(s, p))).held == s.held;
    }
  }

  lemma HeldGrows(s: State, e: Event)
    ensures s.held <= Step(s, e).held
  {
    match e {
      case Resume(k) =>
        if k < |s.publications| {
          FinishHolds(s, k);
        }
      case Recheck(k) =>
        if k < |s.publications| {
          FinishHolds(s, k);
        }
      case StoreApplies(k) =>
      case _ => QuietStepKeepsModels(s, e);
    }
  }

  lemma PhasesStayRead(s: Joint, t: Turn)
    requires AllRead(s.phases, s.models.held) && HeldIsStored(s.models.store, s.models.held)
    ensures AllRead(PhasesAfter(s, t), s.models.held)
  {
  }

  lemma ReadStays(phases: seq<Phase>, held: set<(ProviderId, Catalog)>, held': set<(ProviderId, Catalog)>)
    requires AllRead(phases, held) && held <= held'
    ensures AllRead(phases, held')
  {
    forall j | 0 <= j < |phases| ensures WasRead(held', phases[j]) {
      assert WasRead(held, phases[j]);
    }
  }

  lemma TakeKeepsRead(s: Joint, t: Turn)
    requires AllRead(s.phases, s.models.held) && HeldIsStored(s.models.store, s.models.held)
    ensures AllRead(Take(s, t).phases, Take(s, t).models.held)
  {
    PhasesStayRead(s, t);
    if EventOf(s, t).Some? {
      HeldGrows(s.models, EventOf(s, t).value);
    }
    ReadStays(PhasesAfter(s, t), s.models.held, Take(s, t).models.held);
  }

  lemma {:induction false} PlayKeepsRead(turns: seq<Turn>)
    ensures AllRead(Play(turns).phases, Play(turns).models.held)
  {
    if turns != [] {
      var init := turns[..|turns| - 1];
      PlayKeepsRead(init);
      PlayIsRun(init);
      RunKeepsSound(EventsOf(init));
      TakeKeepsRead(Play(init), turns[|turns| - 1]);
    }
  }

  /** A publication of a phase restores what was read, or persists what it then uses. */
  lemma TurnIsGenuine(s: Joint, t: Turn)
    requires AllRead(s.phases, s.models.held) && EventOf(s, t).Some? && EventOf(s, t).value.Publish?
    ensures var e := EventOf(s, t).value; Genuine(s.models.held, e.id, e.persist, e.update)
  {
    if t.RefreshModels? {
      assert WasRead(s.models.held, s.phases[t.j]);
      RestoredIsOwnPart(s.phases[t.j].provider, s.phases[t.j].progress.stored.value);
    }
  }

  lemma GenuineMore(events: seq<Event>, e: Event)
    requires GenuineRun(events) && (e.Publish? ==> Genuine(Run(events).held, e.id, e.persist, e.update))
    ensures GenuineRun(events + [e])
  {
    var all := events + [e];
    forall n | 0 <= n < |all| && all[n].Publish?
      ensures Genuine(Run(all[..n]).held, all[n].id, all[n].persist, all[n].update)
    {
      assert all[..n] == events[..n];
      assert events[..|events|] == events;
    }
  }

  /** Every publication of a provider made by createProvider is genuine, however its phases interleave with the rest. */
  lemma {:induction false} PlayIsGenuine(turns: seq<Turn>)
    ensures GenuineRun(EventsOf(turns))
  {
    if turns != [] {
      var init, t := turns[..|turns| - 1], turns[|turns| - 1];
      PlayIsGenuine(init);
      PlayKeepsRead(init);
      PlayIsRun(init);
      match EventOf(Play(init), t) {
        case None => assert EventsOf(turns) == EventsOf(init);
        case Some(e) =>
          if e.Publish? {
            TurnIsGenuine(Play(init), t);
          }
          GenuineMore(EventsOf(init), e);
      }
    }
  }

  /**
   A provider made by createProvider shows its baseline alone, or with a catalog of its own that the store held at some
   point, whatever phases, aborts, failures and replacements of the provider interleave.
   */
  lemma CreatedProvidersShowStored(turns: seq<Turn>)
    ensures ModelsHeld(Play(turns).models.dynamicModels, Play(turns).models.held)
  {
    PlayIsRun(turns);
    PlayIsGenuine(turns);
    DynamicModelsWereStored(EventsOf(turns));
  }

  // ----- What an undisturbed phase comes to -----------------------------------------------------

  predicate PhaseUnhindered(s: Joint, j: nat) {
    j < |s.phases|
    && Unhindered(s.models, s.phases[j].provider, s.phases[j].generation, s.phases[j].signal)
  }

  /** The provider object a phase refreshes shows these models. */
  predicate Shows(s: State, p: Phase, models: Catalog) {
    (p.provider, p.generation) in s.owners
    && Lookup(s.dynamicModels, s.owners[(p.provider, p.generation)]) == Some(models)
  }

  /** What the phase does next is read from the store, or go on to the network if that is allowed. */
  lemma ReadFromStore(s: Joint, j: nat)
    requires PhaseUnhindered(s, j) && s.phases[j].progress.Reading?
    ensures var p, read := s.phases[j], Take(s, StoreReads(j));
      && read.models == s.models && |read.phases| == |s.phases|
      && (p.provider in s.models.store ==> read.phases[j] == p.(progress := Read(Some(s.models.store[p.provider]))))
      && (p.provider !in s.models.store ==>
            Take(read, RefreshModels(j)).phases[j] == p.(progress := if p.allowNetwork then Fetching else Ended))
  {
  }

  /**
   A phase that read a catalog and that nothing disturbs shows the catalog's models of its own provider, and then goes
   on to the network exactly if that is allowed.
   */
  lemma CachedIsShown(s: Joint, j: nat, c: Catalog)
    requires PhaseUnhindered(s, j) && s.phases[j].progress == Read(Some(c))
    ensures var p, k := s.phases[j], |s.models.publications|;
      var shown := Take(Take(s, RefreshModels(j)), Protocol(Resume(k)));
      var back := Take(shown, RestoreReturns(j));
      && Shows(back.models, p, Restored(p.provider, c)) && OwnPart(p.provider, c, Restored(p.provider, c))
      && back.models.store == s.models.store && PhaseUnhindered(back, j)
      && back.phases[j] == p.(progress := if p.allowNetwork then Fetching else Ended)
  {
    var p, k := s.phases[j], |s.models.publications|;
    RestoreIsShown(s.models, p.provider, p.generation, p.signal, Restored(p.provider, c));
    RestoredIsOwnPart(p.provider, c);
    var published := Take(s, RefreshModels(j));
    assert published.phases[j] == p.(progress := Restoring(k));
    var shown := Take(published, Protocol(Resume(k)));
    assert shown.phases == published.phases && Answer(shown.models, k) == Some(true);
  }

  /** What a phase that nothing disturbs fetches is stored and shown, and the phase is over. */
  lemma FetchedIsShown(s: Joint, j: nat, c: Catalog)
    requires PhaseUnhindered(s, j) && s.phases[j].progress.Fetching?
    ensures var p, k := s.phases[j], |s.models.publications|;
      var stored := Take(Take(Take(s, Fetched(j, Some(c))), Protocol(Resume(k))), Protocol(StoreApplies(k)));
      var back := Take(Take(Take(stored, Protocol(StoreSucceeds(k))), Protocol(Recheck(k))), PublishReturns(j));
      && Lookup(back.models.store, p.provider) == Some(c)
      && Lookup(back.models.dynamicModels, s.models.owners[(p.provider, p.generation)]) == Some(c)
      && back.phases[j] == p.(progress := Ended)
  {
    var p, k := s.phases[j], |s.models.publications|;
    WriteIsShown(s.models, p.provider, p.generation, p.signal, c);
    var published := Take(s, Fetched(j, Some(c)));
    assert published.phases[j] == p.(progress := Publishing(k));
    var t1 := Take(published, Protocol(Resume(k)));
    var t2 := Take(t1, Protocol(StoreApplies(k)));
    var t3 := Take(t2, Protocol(StoreSucceeds(k)));
    var t4 := Take(t3, Protocol(Recheck(k)));
    assert t4.phases == published.phases && Answer(t4.models, k) == Some(true);
  }

  /** Without leave no phase ever fetches: a phase that fetches or publishes what it fetched was allowed the network. */
  lemma {:induction false} FetchesOnlyIfAllowed(turns: seq<Turn>, j: nat)
    requires j < |Play(turns).phases|
    ensures Play(turns).phases[j].progress.Fetching? || Play(turns).phases[j].progress.Publishing? ==>
      Play(turns).phases[j].allowNetwork
  {
    if turns != [] {
      var init := turns[..|turns| - 1];
      if j < |Play(init).phases| {
        FetchesOnlyIfAllowed(init, j);
      }
    }
  }

  predicate OverOffline(p: Phase, id: ProviderId, generation: nat) {
    p.provider == id && p.generation == generation && !p.allowNetwork && p.progress.Ended?
  }

  lemma PhaseStays(s: Joint, t: Turn, i: nat)
    requires i < |s.phases|
    ensures i < |Take(s, t).phases|
    ensures Take(s, t).phases[i] == s.phases[i].(progress := Take(s, t).phases[i].progress)
    ensures s.phases[i].progress.Ended? ==> Take(s, t).phases[i].progress.Ended?
  {
  }

  lemma PhaseStarts(s: Joint, t: Turn)
    requires |Take(s, t).phases| > |s.phases|
    ensures var p := Take(s, t).phases[|s.phases|];
      |Take(s, t).phases| == |s.phases| + 1 && p.progress == Reading
      && (p.allowNetwork ==> OfflineEnded(s.phases, p.provider, p.generation))
  {
  }

  /** The network is tried only after the phase of the same refresh without it has ended. */
  lemma {:induction false} OfflineComesFirst(turns: seq<Turn>, j: nat)
    requires j < |Play(turns).phases| && Play(turns).phases[j].allowNetwork
    ensures var phases := Play(turns).phases;
      exists i :: 0 <= i < |phases| && OverOffline(phases[i], phases[j].provider, phases[j].generation)
  {
    if turns != [] {
      var init, t := turns[..|turns| - 1], turns[|turns| - 1];
      var s := Play(init);
      var id, generation := Play(turns).phases[j].provider, Play(turns).phases[j].generation;
      if j < |s.phases| {
        PhaseStays(s, t, j);
        OfflineComesFirst(init, j);
      } else {
        PhaseStarts(s, t);
      }
      var i :| 0 <= i < |s.phases| && OverOffline(s.phases[i], id, generation);
      PhaseStays(s, t, i);
    }
  }
}
