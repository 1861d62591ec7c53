/**
 Model-catalog refresh (packages/ai/src/models.ts): generations, abort controllers and the chain of
 publications, as a protocol of atomic steps between awaits. `Step` is the protocol; `ModelsImpl` carries the
 fields of the class and is proved to take exactly these steps.
 */
module ModelRefresh {
  import opened Wrappers

  type ProviderId = string
  type Signal = nat

  /** A provider object. Its id never changes; two objects may share one. */
  datatype Instance = Instance(id: ProviderId, serial: nat)

  datatype Model = Model(provider: ProviderId, id: string, data: string)

  type Catalog = seq<Model>

  datatype Persist = Keep | Delete | Write(catalog: Catalog)

  /** How far a publication has come: queued, in the store, back from the store, or settled. */
  datatype Stage = Waiting | Persisting(applied: bool) | Persisted | Settled(published: bool) {
    /** The publication has passed its first check and is not settled. */
    predicate Active() { Persisting? || Persisted? }
  }

  datatype Publication = Publication(
    provider: ProviderId,
    generation: nat,
    signal: Signal,
    previous: Option<nat>,
    persist: Persist,
    update: Option<Catalog>,
    stage: Stage)

  /** A store mutation as it started, and the generation that was current then. */
  datatype Mutation = Mutation(provider: ProviderId, generation: nat, current: nat)

  /** An in-memory update as it ran: the instance it changed, and what was registered and stored at that moment. */
  datatype Updated = Updated(provider: ProviderId, generation: nat, current: nat, instance: Instance,
                             registered: Option<Instance>, persist: Persist, stored: Option<Catalog>)

  datatype State = State(
    providers: map<ProviderId, Instance>,
    generations: map<ProviderId, nat>,
    controllers: map<ProviderId, Signal>,
    chains: map<ProviderId, nat>,
    publications: seq<Publication>,
    aborted: set<Signal>,
    nextSignal: Signal,
    store: map<ProviderId, Catalog>,
    dynamicModels: map<Instance, Catalog>,
    /** The provider instance each begun refresh belongs to. */
    owners: map<(ProviderId, nat), Instance>,
    /** Every catalog the store ever held. */
    held: set<(ProviderId, Catalog)>,
    mutations: seq<Mutation>,
    updates: seq<Updated>)

  const EMPTY := State(map[], map[], map[], map[], [], {}, 0, map[], map[], map[], {}, [], [])

  datatype Event =
    | SetProvider(instance: Instance)
    | DeleteProvider(id: ProviderId)
    | ClearProviders
    | BeginRefresh(id: ProviderId)
    | EndRefresh(id: ProviderId, signal: Signal)
    | Abort(signal: Signal)
    | Publish(id: ProviderId, generation: nat, signal: Signal, persist: Persist, update: Option<Catalog>)
    | Resume(k: nat)
    | StoreApplies(k: nat)
    | StoreFails(k: nat)
    | StoreSucceeds(k: nat)
    | Recheck(k: nat)
    | CleanChain(k: nat)

  function Lookup<K, V>(m: map<K, V>, k: K): Option<V> {
    if k in m then Some(m[k]) else None
  }

  function Generation(s: State, id: ProviderId): nat {
    if id in s.generations then s.generations[id] else 0
  }

  /** The cached models of a provider that belong to it. */
  function Restored(id: ProviderId, catalog: Catalog): Catalog {
    if catalog == [] then []
    else (if catalog[0].provider == id then [catalog[0]] else []) + Restored(id, catalog[1..])
  }

  // ----- The steps ------------------------------------------------------------------------------

  function Supersede(s: State, id: ProviderId): State {
    s.(generations := s.generations[id := Generation(s, id) + 1],
       controllers := s.controllers - {id},
       aborted := if id in s.controllers then s.aborted + {s.controllers[id]} else s.aborted)
  }

  /** What superseding every provider of a set comes to, in any order. */
  function SupersedeAll(s: State, ids: set<ProviderId>): State {
    s.(generations := map id | id in s.generations.Keys + ids ::
                        if id in ids then Generation(s, id) + 1 else s.generations[id],
       controllers := s.controllers - ids,
       aborted := s.aborted + set id | id in ids && id in s.controllers :: s.controllers[id])
  }

  function InStage(s: State, k: nat, stage: Stage): State
    requires k < |s.publications|
  {
    s.(publications := s.publications[k := s.publications[k].(stage := stage)])
  }

  /** The check a publication passes before it persists and again before it updates. */
  predicate Current(s: State, p: Publication) {
    p.signal !in s.aborted && p.provider in s.generations && s.generations[p.provider] == p.generation
  }

  /** An update runs. */
  function Ran(s: State, catalog: Catalog, u: Updated): State {
    s.(dynamicModels := s.dynamicModels[u.instance := catalog], updates := s.updates + [u])
  }

  /** The second check, and the update. */
  function Finish(s: State, k: nat): State
    requires k < |s.publications|
  {
    var p := s.publications[k];
    if !Current(s, p) then InStage(s, k, Settled(false))
    else
      var s' := InStage(s, k, Settled(true));
      if p.update.None? || (p.provider, p.generation) !in s.owners then s'
      else
        Ran(s', p.update.value,
            Updated(p.provider, p.generation, Generation(s, p.provider), s.owners[(p.provider, p.generation)],
                    Lookup(s.providers, p.provider), p.persist, Lookup(s.store, p.provider)))
  }

  predicate PreviousSettled(s: State, k: nat)
    requires k < |s.publications|
  {
    var previous := s.publications[k].previous;
    previous.Some? ==> previous.value < |s.publications| && s.publications[previous.value].stage.Settled?
  }

  function Begun(s: State, id: ProviderId): State {
    if id !in s.providers then s
    else
      var s' := Supersede(s, id);
      s'.(controllers := s'.controllers[id := s.nextSignal], nextSignal := s.nextSignal + 1,
          owners := s.owners[(id, Generation(s, id) + 1) := s.providers[id]])
  }

  function Enqueued(s: State, p: Publication): State {
    if (p.provider, p.generation) !in s.owners then s
    else
      s.(publications := s.publications + [p.(previous := Lookup(s.chains, p.provider), stage := Waiting)],
         chains := s.chains[p.provider := |s.publications|])
  }

  function Resumed(s: State, k: nat): State {
    if !(k < |s.publications| && s.publications[k].stage.Waiting? && PreviousSettled(s, k)) then s
    else
      var p := s.publications[k];
      if !Current(s, p) then InStage(s, k, Settled(false))
      else if p.persist.Keep? then Finish(s, k)
      else
        InStage(s, k, Persisting(false)).(
        mutations := s.mutations + [Mutation(p.provider, p.generation, Generation(s, p.provider))])
  }

  /** The store after a publication's mutation, and every catalog it ever held. */
  function StoreAfter(store: map<ProviderId, Catalog>, p: Publication): map<ProviderId, Catalog> {
    if p.persist.Write? then store[p.provider := p.persist.catalog] else store - {p.provider}
  }

  function HeldAfter(held: set<(ProviderId, Catalog)>, p: Publication): set<(ProviderId, Catalog)> {
    if p.persist.Write? then held + {(p.provider, p.persist.catalog)} else held
  }

  function Applied(s: State, k: nat): State {
    if k < |s.publications| && s.publications[k].stage == Persisting(false) then
      s.(publications := s.publications[k := s.publications[k].(stage := Persisting(true))],
         store := StoreAfter(s.store, s.publications[k]),
         held := HeldAfter(s.held, s.publications[k]))
    else s
  }

  function Failed(s: State, k: nat): State {
    if k < |s.publications| && s.publications[k].stage.Persisting? then InStage(s, k, Settled(false)) else s
  }

  function Succeeded(s: State, k: nat): State {
    if k < |s.publications| && s.publications[k].stage == Persisting(true) then InStage(s, k, Persisted) else s
  }

  function Rechecked(s: State, k: nat): State {
    if k < |s.publications| && s.publications[k].stage.Persisted? then Finish(s, k) else s
  }

  function Cleaned(s: State, k: nat): State {
    if k < |s.publications| && s.publications[k].stage.Settled?
        && Lookup(s.chains, s.publications[k].provider) == Some(k)
    then s.(chains := s.chains - {s.publications[k].provider})
    else s
  }

  /** One atomic step. A step whose turn has not come changes nothing. */
  function Step(s: State, e: Event): State {
    match e
    case SetProvider(instance) => Supersede(s, instance.id).(providers := s.providers[instance.id := instance])
    case DeleteProvider(id) => Supersede(s, id).(providers := s.providers - {id})
    case ClearProviders => SupersedeAll(s, s.providers.Keys + s.controllers.Keys).(providers := map[])
    case BeginRefresh(id) => Begun(s, id)
    case EndRefresh(id, signal) =>
      if Lookup(s.controllers, id) == Some(signal) then s.(controllers := s.controllers - {id}) else s
    case Abort(signal) => s.(aborted := s.aborted + {signal})
    case Publish(id, generation, signal, persist, update) =>
      Enqueued(s, Publication(id, generation, signal, None, persist, update, Waiting))
    case Resume(k) => Resumed(s, k)
    case StoreApplies(k) => Applied(s, k)
    case StoreFails(k) => Failed(s, k)
    case StoreSucceeds(k) => Succeeded(s, k)
    case Recheck(k) => Rechecked(s, k)
    case CleanChain(k) => Cleaned(s, k)
  }

  function Run(events: seq<Event>): State {
    if events == [] then EMPTY else Step(Run(events[..|events| - 1]), events[|events| - 1])
  }

  // ----- The invariant --------------------------------------------------------------------------

  /** Publications of one provider are settled strictly in the order in which they were queued. */
  ghost predicate InOrder(ps: seq<Publication>) {
    forall i, k :: 0 <= i < k < |ps| && ps[i].provider == ps[k].provider && !ps[k].stage.Waiting? ==>
      ps[i].stage.Settled?
  }

  /**
   While something queued earlier is unsettled, a publication waits for one of its provider queued no earlier than that.
   */
  ghost predicate Linked(ps: seq<Publication>) {
    forall i, k ::
      0 <= i < k < |ps| && ps[i].provider == ps[k].provider && !ps[i].stage.Settled?
      ==> ps[k].previous.Some? && i <= ps[k].previous.value < k && ps[ps[k].previous.value].provider == ps[k].provider
  }

  /** A publication waits for an earlier one of its own provider. */
  ghost predicate WaitsForEarlier(ps: seq<Publication>) {
    forall k :: 0 <= k < |ps| && ps[k].previous.Some? ==>
      ps[k].previous.value < k && ps[ps[k].previous.value].provider == ps[k].provider
  }

  /** The chain of a provider ends with its last publication, or is gone and everything is settled. */
  ghost predicate ChainsEndLast(ps: seq<Publication>, chains: map<ProviderId, nat>) {
    && (forall id <- chains :: chains[id] < |ps| && ps[chains[id]].provider == id)
    && (forall i :: 0 <= i < |ps| ==>
          if ps[i].provider in chains then i <= chains[ps[i].provider] else ps[i].stage.Settled?)
  }

  ghost predicate Chained(ps: seq<Publication>, chains: map<ProviderId, nat>) {
    InOrder(ps) && Linked(ps) && ChainsEndLast(ps, chains)
  }

  /** The refresh of the current generation belongs to the registered instance, and no refresh is ahead of it. */
  ghost predicate OwnersCurrent(
    generations: map<ProviderId, nat>, providers: map<ProviderId, Instance>, owners: map<(ProviderId, nat), Instance>)
  {
    && (forall key <- owners :: key.0 in generations && key.1 <= generations[key.0] && owners[key].id == key.0)
    && (forall key <- owners :: key.0 in generations && key.1 == generations[key.0] ==>
        Lookup(providers, key.0) == Some(owners[key]))
    && (forall id <- providers :: providers[id].id == id)
  }

  ghost predicate AllOwned(ps: seq<Publication>, owners: map<(ProviderId, nat), Instance>) {
    forall i :: 0 <= i < |ps| ==> (ps[i].provider, ps[i].generation) in owners
  }

  predicate InStore(p: Publication, store: map<ProviderId, Catalog>) {
    match p.persist
    case Keep => false
    case Delete => p.provider !in store
    case Write(c) => p.provider in store && store[p.provider] == c
  }

  /** What a publication persisted is still in the store while it is on its way to its update. */
  ghost predicate StoreMatches(ps: seq<Publication>, store: map<ProviderId, Catalog>) {
    && (forall i :: 0 <= i < |ps| && ps[i].stage.Active() ==> !ps[i].persist.Keep?)
    && (forall i :: 0 <= i < |ps| && (ps[i].stage.Persisted? || ps[i].stage == Persisting(true)) ==>
        InStore(ps[i], store))
  }

  ghost predicate HeldIsStored(store: map<ProviderId, Catalog>, held: set<(ProviderId, Catalog)>) {
    forall id <- store :: (id, store[id]) in held
  }

  /** Mutations start in their own generation, and generations never go back. */
  ghost predicate MutationsOrdered(mutations: seq<Mutation>, generations: map<ProviderId, nat>) {
    && (forall i :: 0 <= i < |mutations| ==>
          && mutations[i].generation == mutations[i].current && mutations[i].provider in generations
          && mutations[i].generation <= generations[mutations[i].provider])
    && (forall i, j :: 0 <= i < j < |mutations| && mutations[i].provider == mutations[j].provider ==>
          mutations[i].generation <= mutations[j].generation)
  }

  /** An update ran in its own generation, on the registered instance, with its own catalog in the store. */
  predicate UpdateSound(u: Updated) {
    && u.generation == u.current
    && u.registered == Some(u.instance)
    && u.instance.id == u.provider
    && (u.persist.Write? ==> u.stored == Some(u.persist.catalog))
    && (u.persist.Delete? ==> u.stored == None)
  }

  ghost predicate UpdatesSound(updates: seq<Updated>, generations: map<ProviderId, nat>) {
    && (forall i :: 0 <= i < |updates| ==>
          && UpdateSound(updates[i]) && updates[i].provider in generations
          && updates[i].generation <= generations[updates[i].provider])
    && (forall i, j :: 0 <= i < j < |updates| && updates[i].provider == updates[j].provider ==>
          updates[i].generation <= updates[j].generation)
  }

  ghost predicate Sound(s: State) {
    && Chained(s.publications, s.chains)
    && OwnersCurrent(s.generations, s.providers, s.owners) && AllOwned(s.publications, s.owners)
    && StoreMatches(s.publications, s.store) && HeldIsStored(s.store, s.held)
    && MutationsOrdered(s.mutations, s.generations) && UpdatesSound(s.updates, s.generations)
  }

  // ----- The chain of publications --------------------------------------------------------------

  /** Everything queued for the provider before publication k is settled. */
  ghost predicate Reached(ps: seq<Publication>, k: nat) {
    k < |ps| && forall i :: 0 <= i < k && ps[i].provider == ps[k].provider ==> ps[i].stage.Settled?
  }

  lemma ResumedIsReached(s: State, k: nat)
    requires Chained(s.publications, s.chains) && k < |s.publications| && PreviousSettled(s, k)
    ensures Reached(s.publications, k)
  {
    var ps := s.publications;
    forall i | 0 <= i < k && ps[i].provider == ps[k].provider ensures ps[i].stage.Settled? {
      if !ps[i].stage.Settled? {
        var j := ps[k].previous.value;
        if i == j {
          assert false;
        } else {
          // Publication i is unsettled and j comes after it, so j cannot have settled.
          assert false;
        }
      }
    }
  }

  lemma StartedIsReached(ps: seq<Publication>, k: nat)
    requires InOrder(ps) && k < |ps| && !ps[k].stage.Waiting?
    ensures Reached(ps, k)
  {
  }

  lemma AdvanceKeepsInOrder(ps: seq<Publication>, k: nat, stage: Stage)
    requires InOrder(ps) && Linked(ps) && Reached(ps, k) && !stage.Waiting?
    requires ps[k].stage.Settled? ==> stage.Settled?
    ensures InOrder(ps[k := ps[k].(stage := stage)])
    ensures Linked(ps[k := ps[k].(stage := stage)])
  {
    var ps' := ps[k := ps[k].(stage := stage)];
    assert forall i :: 0 <= i < |ps| ==> ps'[i].provider == ps[i].provider && ps'[i].previous == ps[i].previous;
    assert forall i :: 0 <= i < |ps| && i != k ==> ps'[i].stage == ps[i].stage;
  }

  lemma AdvanceKeepsChained(ps: seq<Publication>, chains: map<ProviderId, nat>, k: nat, stage: Stage)
    requires Chained(ps, chains) && Reached(ps, k) && !stage.Waiting? && !ps[k].stage.Settled?
    ensures Chained(ps[k := ps[k].(stage := stage)], chains)
  {
    AdvanceKeepsInOrder(ps, k, stage);
    var ps' := ps[k := ps[k].(stage := stage)];
    assert forall i :: 0 <= i < |ps| ==> ps'[i].provider == ps[i].provider;
    assert forall i :: 0 <= i < |ps| && ps[i].stage.Settled? ==> ps'[i].stage.Settled?;
  }

  /** No two publications of one provider are in the store, or on the way back from it, at the same time. */
  lemma NeverTwoActive(ps: seq<Publication>, i: nat, k: nat)
    requires InOrder(ps) && i < |ps| && k < |ps| && ps[i].provider == ps[k].provider
    requires ps[i].stage.Active() && ps[k].stage.Active()
    ensures i == k
  {
    if i < k {
      assert false;
    }
  }

  lemma EnqueueKeepsChained(s: State, p: Publication)
    requires Chained(s.publications, s.chains) && p.stage.Waiting? && p.previous == Lookup(s.chains, p.provider)
    ensures Chained(s.publications + [p], s.chains[p.provider := |s.publications|])
  {
    var ps, ps' := s.publications, s.publications + [p];
    var n := |ps|;
    assert ps'[..n] == ps && ps'[n] == p;
    assert forall i :: 0 <= i < n ==> ps'[i] == ps[i];
    EnqueueKeepsLinked(s, p);
  }

  lemma EnqueueKeepsLinked(s: State, p: Publication)
    requires Chained(s.publications, s.chains) && p.stage.Waiting? && p.previous == Lookup(s.chains, p.provider)
    ensures Linked(s.publications + [p])
  {
    var ps, ps' := s.publications, s.publications + [p];
    assert forall i :: 0 <= i < |ps| ==> ps'[i] == ps[i];
    forall i, k | 0 <= i < k < |ps'| && ps'[i].provider == ps'[k].provider && !ps'[i].stage.Settled?
      ensures ps'[k].previous.Some? && i <= ps'[k].previous.value < k
        && ps'[ps'[k].previous.value].provider == ps'[k].provider
    {
      if k == |ps| {
        assert ps[i].provider in s.chains;
      } else {
        assert ps[i].provider == ps[k].provider;
      }
    }
  }

  lemma CleanKeepsChained(s: State, k: nat)
    requires Chained(s.publications, s.chains)
    ensures Chained(Cleaned(s, k).publications, Cleaned(s, k).chains)
  {
    var ps := s.publications;
    if Cleaned(s, k) != s {
      forall i | 0 <= i < |ps| && ps[i].provider == ps[k].provider ensures ps[i].stage.Settled? {
        assert i <= k;
      }
    }
  }

  // ----- Every step keeps the invariant ---------------------------------------------------------

  predicate Registers(e: Event) {
    e.SetProvider? || e.DeleteProvider? || e.ClearProviders? || e.BeginRefresh? || e.EndRefresh? || e.Abort?
  }

  ghost predicate NeverBack(generations: map<ProviderId, nat>, generations': map<ProviderId, nat>) {
    forall id <- generations :: id in generations' && generations[id] <= generations'[id]
  }

  /** What registering leaves alone. */
  ghost predicate TouchesNoPublication(s: State, s': State) {
    && s'.publications == s.publications && s'.chains == s.chains && s'.store == s.store && s'.held == s.held
    && s'.mutations == s.mutations && s'.updates == s.updates && s'.dynamicModels == s.dynamicModels
    && NeverBack(s.generations, s'.generations)
    && (forall key <- s.owners :: key in s'.owners)
  }

  lemma SupersedeTouchesNone(s: State, id: ProviderId)
    ensures TouchesNoPublication(s, Supersede(s, id))
  {
  }

  lemma SupersedeAllTouchesNone(s: State, ids: set<ProviderId>)
    ensures TouchesNoPublication(s, SupersedeAll(s, ids))
  {
  }

  lemma BegunTouchesNone(s: State, id: ProviderId)
    ensures TouchesNoPublication(s, Begun(s, id))
  {
    SupersedeTouchesNone(s, id);
  }

  lemma RegisteringTouchesNoPublication(s: State, e: Event)
    requires Registers(e)
    ensures TouchesNoPublication(s, Step(s, e))
  {
    match e {
      case SetProvider(instance) => SupersedeTouchesNone(s, instance.id);
      case DeleteProvider(id) => SupersedeTouchesNone(s, id);
      case ClearProviders => SupersedeAllTouchesNone(s, s.providers.Keys + s.controllers.Keys);
      case BeginRefresh(id) => BegunTouchesNone(s, id);
      case EndRefresh(_, _) =>
      case Abort(_) =>
    }
  }

  // What each of the other steps leaves alone.

  lemma InStageFrame(s: State, k: nat, stage: Stage)
    requires k < |s.publications|
    ensures InStage(s, k, stage) == s.(publications := InStage(s, k, stage).publications)
  {
  }

  lemma EnqueuedFrame(s: State, p: Publication)
    ensures var s' := Enqueued(s, p); s' == s.(publications := s'.publications, chains := s'.chains)
  {
  }

  lemma FailedFrame(s: State, k: nat)
    ensures Failed(s, k) == s.(publications := Failed(s, k).publications)
  {
    if k < |s.publications| {
      InStageFrame(s, k, Settled(false));
    }
  }

  lemma SucceededFrame(s: State, k: nat)
    ensures Succeeded(s, k) == s.(publications := Succeeded(s, k).publications)
  {
    if k < |s.publications| {
      InStageFrame(s, k, Persisted);
    }
  }

  lemma CleanedFrame(s: State, k: nat)
    ensures Cleaned(s, k) == s.(chains := Cleaned(s, k).chains)
  {
  }

  lemma RanFrame(s: State, catalog: Catalog, u: Updated)
    ensures var s' := Ran(s, catalog, u); s' == s.(dynamicModels := s'.dynamicModels, updates := s'.updates)
  {
  }

  lemma FinishFrame(s: State, k: nat)
    requires k < |s.publications|
    ensures var s' := Finish(s, k);
      s' == s.(publications := s'.publications, dynamicModels := s'.dynamicModels, updates := s'.updates)
  {
    var p := s.publications[k];
    InStageFrame(s, k, Settled(false));
    InStageFrame(s, k, Settled(true));
    if Current(s, p) && p.update.Some? && (p.provider, p.generation) in s.owners {
      RanFrame(InStage(s, k, Settled(true)), p.update.value,
               Updated(p.provider, p.generation, Generation(s, p.provider), s.owners[(p.provider, p.generation)],
                       Lookup(s.providers, p.provider), p.persist, Lookup(s.store, p.provider)));
    }
  }

  lemma PersistingFrame(s: State, k: nat, m: Mutation)
    requires k < |s.publications|
    ensures var s' := InStage(s, k, Persisting(false)).(mutations := s.mutations + [m]);
      s' == s.(publications := s'.publications, mutations := s'.mutations)
  {
  }

  lemma ResumedFrame(s: State, k: nat)
    ensures var s' := Resumed(s, k);
      s' == s.(publications := s'.publications, dynamicModels := s'.dynamicModels, updates := s'.updates,
               mutations := s'.mutations)
  {
    if k < |s.publications| {
      var p := s.publications[k];
      FinishFrame(s, k);
      PersistingFrame(s, k, Mutation(p.provider, p.generation, Generation(s, p.provider)));
    }
  }

  lemma RecheckedFrame(s: State, k: nat)
    ensures var s' := Rechecked(s, k);
      s' == s.(publications := s'.publications, dynamicModels := s'.dynamicModels, updates := s'.updates)
  {
    if k < |s.publications| {
      FinishFrame(s, k);
    }
  }

  /** A step that neither registers, checks nor reaches the store only moves publications. */
  lemma QuietFrame(s: State, e: Event)
    requires e.Publish? || e.StoreFails? || e.StoreSucceeds? || e.CleanChain?
    ensures var s' := Step(s, e); s' == s.(publications := s'.publications, chains := s'.chains)
  {
    match e {
      case Publish(id, generation, signal, persist, update) =>
        EnqueuedFrame(s, Publication(id, generation, signal, None, persist, update, Waiting));
      case StoreFails(k) => FailedFrame(s, k);
      case StoreSucceeds(k) => SucceededFrame(s, k);
      case CleanChain(k) => CleanedFrame(s, k);
    }
  }

  lemma SupersedeKeepsOwners(s: State, id: ProviderId, registered: Option<Instance>)
    requires OwnersCurrent(s.generations, s.providers, s.owners) && (registered.Some? ==> registered.value.id == id)
    ensures OwnersCurrent(Supersede(s, id).generations,
                          if registered.Some? then s.providers[id := registered.value] else s.providers - {id},
                          s.owners)
  {
  }

  lemma ClearKeepsOwners(s: State)
    requires OwnersCurrent(s.generations, s.providers, s.owners)
    ensures OwnersCurrent(SupersedeAll(s, s.providers.Keys + s.controllers.Keys).generations, map[], s.owners)
  {
    var generations := SupersedeAll(s, s.providers.Keys + s.controllers.Keys).generations;
    forall key | key in s.owners ensures key.0 in generations && key.1 < generations[key.0] {
      assert key.0 in s.providers || key.1 < s.generations[key.0];
    }
  }

  lemma BeginKeepsOwners(s: State, id: ProviderId)
    requires OwnersCurrent(s.generations, s.providers, s.owners)
    ensures OwnersCurrent(Begun(s, id).generations, Begun(s, id).providers, Begun(s, id).owners)
  {
  }

  lemma RegisteringKeepsOwners(s: State, e: Event)
    requires Registers(e) && OwnersCurrent(s.generations, s.providers, s.owners)
    ensures var s' := Step(s, e); OwnersCurrent(s'.generations, s'.providers, s'.owners)
  {
    match e {
      case SetProvider(instance) => SupersedeKeepsOwners(s, instance.id, Some(instance));
      case DeleteProvider(id) => SupersedeKeepsOwners(s, id, None);
      case ClearProviders => ClearKeepsOwners(s);
      case BeginRefresh(id) => BeginKeepsOwners(s, id);
      case EndRefresh(_, _) =>
      case Abort(_) =>
    }
  }

  lemma RegisteringKeepsSound(s: State, e: Event)
    requires Registers(e) && Sound(s)
    ensures Sound(Step(s, e))
  {
    RegisteringTouchesNoPublication(s, e);
    RegisteringKeepsOwners(s, e);
  }

  lemma EnqueueKeepsRest(s: State, p: Publication)
    requires AllOwned(s.publications, s.owners) && StoreMatches(s.publications, s.store)
    requires (p.provider, p.generation) in s.owners && p.stage.Waiting?
    ensures AllOwned(s.publications + [p], s.owners) && StoreMatches(s.publications + [p], s.store)
  {
    assert forall i :: 0 <= i < |s.publications| ==> (s.publications + [p])[i] == s.publications[i];
  }

  lemma QueueingKeepsSound(s: State, e: Event)
    requires e.Publish? || e.CleanChain?
    requires Sound(s)
    ensures Sound(Step(s, e))
  {
    var s' := Step(s, e);
    if e.CleanChain? {
      CleanKeepsChained(s, e.k);
    } else if (e.id, e.generation) in s.owners {
      var p := Publication(e.id, e.generation, e.signal, Lookup(s.chains, e.id), e.persist, e.update, Waiting);
      EnqueueKeepsChained(s, p);
      EnqueueKeepsRest(s, p);
      assert s'.publications == s.publications + [p];
    }
  }

  lemma AdvanceKeepsOwned(ps: seq<Publication>, owners: map<(ProviderId, nat), Instance>, k: nat, stage: Stage)
    requires k < |ps| && AllOwned(ps, owners)
    ensures AllOwned(ps[k := ps[k].(stage := stage)], owners)
  {
  }

  lemma AdvanceKeepsStoreMatches(ps: seq<Publication>, store: map<ProviderId, Catalog>, k: nat, stage: Stage)
    requires k < |ps| && StoreMatches(ps, store)
    requires stage.Active() ==> !ps[k].persist.Keep?
    requires stage.Persisted? || stage == Persisting(true) ==> InStore(ps[k], store)
    ensures StoreMatches(ps[k := ps[k].(stage := stage)], store)
  {
    assert InStore(ps[k].(stage := stage), store) == InStore(ps[k], store);
  }

  /** A publication that settles, or comes back from the store, leaves the rest as it is. */
  lemma InStageKeepsSound(s: State, k: nat, stage: Stage)
    requires Sound(s) && Reached(s.publications, k) && !stage.Waiting? && !s.publications[k].stage.Settled?
    requires stage.Active() ==> !s.publications[k].persist.Keep?
    requires stage.Persisted? || stage == Persisting(true) ==> InStore(s.publications[k], s.store)
    ensures Sound(InStage(s, k, stage))
  {
    AdvanceKeepsChained(s.publications, s.chains, k, stage);
    AdvanceKeepsOwned(s.publications, s.owners, k, stage);
    AdvanceKeepsStoreMatches(s.publications, s.store, k, stage);
  }

  lemma UpdateKeepsUpdates(updates: seq<Updated>, generations: map<ProviderId, nat>, u: Updated)
    requires UpdatesSound(updates, generations) && UpdateSound(u)
    requires u.provider in generations && generations[u.provider] == u.generation
    ensures UpdatesSound(updates + [u], generations)
  {
    assert forall i :: 0 <= i < |updates| ==> (updates + [u])[i] == updates[i];
  }

  lemma MutationKeepsMutations(mutations: seq<Mutation>, generations: map<ProviderId, nat>, m: Mutation)
    requires MutationsOrdered(mutations, generations) && m.generation == m.current
    requires m.provider in generations && generations[m.provider] == m.generation
    ensures MutationsOrdered(mutations + [m], generations)
  {
    assert forall i :: 0 <= i < |mutations| ==> (mutations + [m])[i] == mutations[i];
  }

  lemma FinishKeepsSound(s: State, k: nat)
    requires Sound(s) && Reached(s.publications, k) && !s.publications[k].stage.Settled?
    requires s.publications[k].stage.Persisted? || s.publications[k].persist.Keep?
    ensures Sound(Finish(s, k))
  {
    var p, s' := s.publications[k], Finish(s, k);
    if !Current(s, p) {
      InStageKeepsSound(s, k, Settled(false));
    } else {
      var t := InStage(s, k, Settled(true));
      InStageKeepsSound(s, k, Settled(true));
      if s' != t {
        FinishedUpdateSound(s, k);
        UpdateKeepsUpdates(s.updates, s.generations, s'.updates[|s.updates|]);
      }
    }
  }

  /** The update that runs is that of the current generation, on the registered instance, over its own catalog. */
  lemma FinishedUpdateSound(s: State, k: nat)
    requires OwnersCurrent(s.generations, s.providers, s.owners) && StoreMatches(s.publications, s.store)
      && k < |s.publications|
    requires s.publications[k].stage.Persisted? || s.publications[k].persist.Keep?
    requires Current(s, s.publications[k]) && s.publications[k].update.Some?
    requires (s.publications[k].provider, s.publications[k].generation) in s.owners
    ensures Finish(s, k).updates[..|s.updates|] == s.updates && |Finish(s, k).updates| == |s.updates| + 1
    ensures UpdateSound(Finish(s, k).updates[|s.updates|])
  {
    var key := (s.publications[k].provider, s.publications[k].generation);
    assert s.owners[key].id == key.0;
    assert s.publications[k].stage.Persisted? ==> InStore(s.publications[k], s.store);
  }

  lemma ResumeKeepsSound(s: State, k: nat)
    requires Sound(s)
    ensures Sound(Resumed(s, k))
  {
    if k < |s.publications| && s.publications[k].stage.Waiting? && PreviousSettled(s, k) {
      ResumedIsReached(s, k);
      var p := s.publications[k];
      if !Current(s, p) {
        InStageKeepsSound(s, k, Settled(false));
      } else if p.persist.Keep? {
        FinishKeepsSound(s, k);
      } else {
        InStageKeepsSound(s, k, Persisting(false));
        MutationKeepsMutations(s.mutations, s.generations,
                               Mutation(p.provider, p.generation, Generation(s, p.provider)));
      }
    }
  }

  /** What one publication writes touches no other that is on its way: the others of its provider are not. */
  lemma ApplyKeepsStoreMatches(ps: seq<Publication>, store: map<ProviderId, Catalog>, store': map<ProviderId, Catalog>,
                               k: nat)
    requires InOrder(ps) && StoreMatches(ps, store) && k < |ps| && ps[k].stage == Persisting(false)
    requires forall id :: id != ps[k].provider ==> Lookup(store', id) == Lookup(store, id)
    requires InStore(ps[k], store')
    ensures StoreMatches(ps[k := ps[k].(stage := Persisting(true))], store')
  {
    forall i | 0 <= i < |ps| && i != k && (ps[i].stage.Persisted? || ps[i].stage == Persisting(true))
      ensures InStore(ps[i], store')
    {
      if ps[i].provider == ps[k].provider {
        NeverTwoActive(ps, i, k);
      } else {
        assert InStore(ps[i], store);
        assert Lookup(store', ps[i].provider) == Lookup(store, ps[i].provider);
      }
    }
    assert InStore(ps[k].(stage := Persisting(true)), store') == InStore(ps[k], store');
  }

  lemma AppliedIsInStore(s: State, k: nat)
    requires k < |s.publications| && s.publications[k].stage == Persisting(false) && !s.publications[k].persist.Keep?
    requires HeldIsStored(s.store, s.held)
    ensures InStore(s.publications[k], Applied(s, k).store) && HeldIsStored(Applied(s, k).store, Applied(s, k).held)
    ensures forall id :: id != s.publications[k].provider ==> Lookup(Applied(s, k).store, id) == Lookup(s.store, id)
  {
  }

  lemma ApplyKeepsChain(s: State, k: nat)
    requires Chained(s.publications, s.chains) && AllOwned(s.publications, s.owners)
    ensures Chained(Applied(s, k).publications, Applied(s, k).chains)
    ensures AllOwned(Applied(s, k).publications, Applied(s, k).owners)
  {
    if k < |s.publications| && s.publications[k].stage == Persisting(false) {
      StartedIsReached(s.publications, k);
      AdvanceKeepsChained(s.publications, s.chains, k, Persisting(true));
      AdvanceKeepsOwned(s.publications, s.owners, k, Persisting(true));
    }
  }

  lemma ApplyKeepsStore(s: State, k: nat)
    requires InOrder(s.publications) && StoreMatches(s.publications, s.store) && HeldIsStored(s.store, s.held)
    ensures StoreMatches(Applied(s, k).publications, Applied(s, k).store)
      && HeldIsStored(Applied(s, k).store, Applied(s, k).held)
  {
    if k < |s.publications| && s.publications[k].stage == Persisting(false) {
      AppliedIsInStore(s, k);
      ApplyKeepsStoreMatches(s.publications, s.store, Applied(s, k).store, k);
    }
  }

  lemma ApplyTouchesStoreOnly(s: State, k: nat)
    ensures var s' := Applied(s, k); s' == s.(publications := s'.publications, store := s'.store, held := s'.held)
  {
  }

  lemma ApplyKeepsSound(s: State, k: nat)
    requires Sound(s)
    ensures Sound(Applied(s, k))
  {
    var s' := Applied(s, k);
    ApplyTouchesStoreOnly(s, k);
    assert Chained(s'.publications, s'.chains) && AllOwned(s'.publications, s'.owners) by { ApplyKeepsChain(s, k); }
    assert StoreMatches(s'.publications, s'.store) && HeldIsStored(s'.store, s'.held) by { ApplyKeepsStore(s, k); }
  }

  lemma FailKeepsSound(s: State, k: nat)
    requires Sound(s)
    ensures Sound(Failed(s, k))
  {
    if k < |s.publications| && s.publications[k].stage.Persisting? {
      StartedIsReached(s.publications, k);
      InStageKeepsSound(s, k, Settled(false));
    }
  }

  lemma SucceedKeepsSound(s: State, k: nat)
    requires Sound(s)
    ensures Sound(Succeeded(s, k))
  {
    if k < |s.publications| && s.publications[k].stage == Persisting(true) {
      StartedIsReached(s.publications, k);
      InStageKeepsSound(s, k, Persisted);
    }
  }

  lemma RecheckKeepsSound(s: State, k: nat)
    requires Sound(s)
    ensures Sound(Rechecked(s, k))
  {
    if k < |s.publications| && s.publications[k].stage.Persisted? {
      StartedIsReached(s.publications, k);
      FinishKeepsSound(s, k);
    }
  }

  lemma StoreStepKeepsSound(s: State, e: Event)
    requires Sound(s) && !Registers(e) && !e.Publish? && !e.CleanChain?
    ensures Sound(Step(s, e))
  {
    match e {
      case Resume(k) => ResumeKeepsSound(s, k);
      case StoreApplies(k) => ApplyKeepsSound(s, k);
      case StoreFails(k) => FailKeepsSound(s, k);
      case StoreSucceeds(k) => SucceedKeepsSound(s, k);
      case Recheck(k) => RecheckKeepsSound(s, k);
    }
  }

  lemma StepKeepsSound(s: State, e: Event)
    requires Sound(s)
    ensures Sound(Step(s, e))
  {
    if Registers(e) {
      RegisteringKeepsSound(s, e);
    } else if e.Publish? || e.CleanChain? {
      QueueingKeepsSound(s, e);
    } else {
      StoreStepKeepsSound(s, e);
    }
  }

  /** The invariant holds in every reachable state, whatever interleaves. */
  lemma {:induction false} RunKeepsSound(events: seq<Event>)
    ensures Sound(Run(events))
  {
    if events != [] {
      RunKeepsSound(events[..|events| - 1]);
      StepKeepsSound(Run(events[..|events| - 1]), events[|events| - 1]);
    }
  }

  // ----- What follows for whole runs ------------------------------------------------------------

  /** Per provider at most one publication is in the store or on its way back, in every reachable state. */
  lemma StoreMutationsNeverOverlap(events: seq<Event>, i: nat, k: nat)
    requires i < |Run(events).publications| && k < |Run(events).publications|
    requires Run(events).publications[i].provider == Run(events).publications[k].provider
    requires Run(events).publications[i].stage.Active() && Run(events).publications[k].stage.Active()
    ensures i == k
  {
    RunKeepsSound(events);
    NeverTwoActive(Run(events).publications, i, k);
  }

  /**
   What became of a controller: it is the current one of its provider, its signal is aborted, or its refresh ended.
   */
  ghost predicate Accounted(s: State, events: seq<Event>, signal: Signal) {
    || signal in s.aborted
    || (exists id :: id in s.controllers && s.controllers[id] == signal)
    || (exists k :: 0 <= k < |events| && events[k].EndRefresh? && events[k].signal == signal)
  }

  /** What a step does to the controllers: nothing, unless it registers. */
  ghost predicate SameControllers(s: State, s': State) {
    s'.controllers == s.controllers && s'.aborted == s.aborted && s'.nextSignal == s.nextSignal
  }

  lemma PublicationsTouchNoController(s: State, e: Event)
    requires !Registers(e)
    ensures SameControllers(s, Step(s, e))
  {
    match e {
      case Resume(k) => ResumedFrame(s, k);
      case Recheck(k) => RecheckedFrame(s, k);
      case StoreApplies(k) => ApplyTouchesStoreOnly(s, k);
      case _ => QuietFrame(s, e);
    }
  }

  /** A step drops a controller only by aborting it, or at the end of its own refresh. */
  lemma StepDropsNoController(s: State, e: Event, id: ProviderId)
    requires id in s.controllers
    ensures var s' := Step(s, e);
      || (id in s'.controllers && s'.controllers[id] == s.controllers[id])
      || s.controllers[id] in s'.aborted
      || (e.EndRefresh? && e.signal == s.controllers[id])
  {
    if !Registers(e) {
      PublicationsTouchNoController(s, e);
    }
  }

  lemma StepIssuesOne(s: State, e: Event)
    ensures var s' := Step(s, e);
      && s.aborted <= s'.aborted && s.nextSignal <= s'.nextSignal <= s.nextSignal + 1
      && (s'.nextSignal > s.nextSignal ==>
          e.BeginRefresh? && e.id in s'.controllers && s'.controllers[e.id] == s.nextSignal)
  {
    if !Registers(e) {
      PublicationsTouchNoController(s, e);
    }
  }

  /** The controller a step makes is the current one. */
  lemma AccountedNew(s: State, e: Event, events: seq<Event>, signal: Signal)
    requires s.nextSignal <= signal < Step(s, e).nextSignal
    ensures Accounted(Step(s, e), events, signal)
  {
    StepIssuesOne(s, e);
  }

  /** Every controller ever made is current, aborted or done: superseding a refresh always aborts it. */
  lemma {:induction false} EveryControllerAccountedFor(events: seq<Event>, signal: Signal)
    requires signal < Run(events).nextSignal
    ensures Accounted(Run(events), events, signal)
    decreases |events|
  {
    var last := |events| - 1;
    if signal < Run(events[..last]).nextSignal {
      EveryControllerAccountedFor(events[..last], signal);
      AccountedAfter(events[..last], events[last], signal);
      assert events[..last] + [events[last]] == events;
    } else {
      AccountedNew(Run(events[..last]), events[last], events, signal);
    }
  }

  lemma AccountedAfter(init: seq<Event>, e: Event, signal: Signal)
    requires Accounted(Run(init), init, signal)
    ensures Accounted(Step(Run(init), e), init + [e], signal)
  {
    var s, events := Run(init), init + [e];
    StepIssuesOne(s, e);
    if id :| id in s.controllers && s.controllers[id] == signal {
      StepDropsNoController(s, e, id);
      assert events[|init|] == e;
    }
    if k :| 0 <= k < |init| && init[k].EndRefresh? && init[k].signal == signal {
      assert events[k] == init[k];
    }
  }

  /** At most one update and one mutation were added, both at the current generation of their provider. */
  ghost predicate Extends(s: State, s': State) {
    && NeverBack(s.generations, s'.generations)
    && (s'.updates == s.updates
        || exists u :: s'.updates == s.updates + [u] && u.generation == Generation(s, u.provider))
    && (s'.mutations == s.mutations
        || exists m :: s'.mutations == s.mutations + [m] && m.generation == Generation(s, m.provider))
  }

  lemma FinishAddsUpdate(s: State, k: nat)
    requires k < |s.publications|
    ensures Finish(s, k).updates == s.updates
         || exists u :: Finish(s, k).updates == s.updates + [u] && u.generation == Generation(s, u.provider)
  {
    var p := s.publications[k];
    if Current(s, p) && p.update.Some? && (p.provider, p.generation) in s.owners {
      var u := Updated(p.provider, p.generation, Generation(s, p.provider), s.owners[(p.provider, p.generation)],
                       Lookup(s.providers, p.provider), p.persist, Lookup(s.store, p.provider));
      assert Finish(s, k).updates == s.updates + [u];
    }
  }

  lemma FinishExtends(s: State, k: nat)
    requires k < |s.publications|
    ensures Extends(s, Finish(s, k))
  {
    FinishFrame(s, k);
    FinishAddsUpdate(s, k);
  }

  lemma ResumeExtends(s: State, k: nat)
    ensures Extends(s, Resumed(s, k))
  {
    if k < |s.publications| {
      FinishExtends(s, k);
      var p := s.publications[k];
      assert Current(s, p) ==> Mutation(p.provider, p.generation, p.generation).generation == Generation(s, p.provider);
    }
  }

  lemma StepExtends(s: State, e: Event)
    ensures Extends(s, Step(s, e))
  {
    match e {
      case Resume(k) => ResumeExtends(s, k);
      case Recheck(k) =>
        if k < |s.publications| {
          FinishExtends(s, k);
        }
      case _ => OtherStepExtends(s, e);
    }
  }

  lemma OtherStepExtends(s: State, e: Event)
    requires !e.Resume? && !e.Recheck?
    ensures Step(s, e).updates == s.updates && Step(s, e).mutations == s.mutations
    ensures NeverBack(s.generations, Step(s, e).generations)
  {
    if Registers(e) {
      RegisteringTouchesNoPublication(s, e);
    } else if e.StoreApplies? {
      ApplyTouchesStoreOnly(s, e.k);
    } else {
      QuietFrame(s, e);
    }
  }

  /** Everything that started between two states is at least as new as its provider was in the first. */
  ghost predicate StartedSince(s: State, s': State) {
    && NeverBack(s.generations, s'.generations)
    && (forall i :: |s.updates| <= i < |s'.updates| ==>
        Generation(s, s'.updates[i].provider) <= s'.updates[i].generation)
    && (forall i :: |s.mutations| <= i < |s'.mutations| ==>
        Generation(s, s'.mutations[i].provider) <= s'.mutations[i].generation)
  }

  lemma StartedSinceExtends(s: State, t: State, t': State)
    requires StartedSince(s, t) && Extends(t, t')
    ensures StartedSince(s, t')
  {
    forall i | |s.updates| <= i < |t'.updates|
      ensures Generation(s, t'.updates[i].provider) <= t'.updates[i].generation
    {
      if i < |t.updates| {
        assert t'.updates[i] == t.updates[i];
      }
    }
    forall i | |s.mutations| <= i < |t'.mutations|
      ensures Generation(s, t'.mutations[i].provider) <= t'.mutations[i].generation
    {
      if i < |t.mutations| {
        assert t'.mutations[i] == t.mutations[i];
      }
    }
  }

  lemma StartedSinceStep(s: State, t: State, e: Event)
    requires StartedSince(s, t)
    ensures StartedSince(s, Step(t, e))
  {
    StepExtends(t, e);
    StartedSinceExtends(s, t, Step(t, e));
  }

  lemma RunContinues(events: seq<Event>, more: seq<Event>)
    requires more != []
    ensures Run(events + more) == Step(Run(events + more[..|more| - 1]), more[|more| - 1])
  {
    assert (events + more)[..|events + more| - 1] == events + more[..|more| - 1];
  }

  /**
   Once a refresh is superseded (by setProvider, deleteProvider, clearProviders or a newer refresh) nothing it
   publishes starts a mutation or runs an update any more.
   */
  lemma {:induction false} SupersededNeverPublishes(events: seq<Event>, more: seq<Event>)
    ensures StartedSince(Run(events), Run(events + more))
  {
    if more == [] {
      assert events + more == events;
    } else {
      SupersededNeverPublishes(events, more[..|more| - 1]);
      RunContinues(events, more);
      StartedSinceStep(Run(events), Run(events + more[..|more| - 1]), more[|more| - 1]);
    }
  }

  // ----- Aborted refreshes ----------------------------------------------------------------------

  /** Publication k carries an aborted signal and has not published. */
  predicate Aborted(s: State, k: nat) {
    k < |s.publications| && s.publications[k].signal in s.aborted && s.publications[k].stage != Settled(true)
  }

  /** It stays so, and one that waited never reaches the store. */
  predicate AbortedStays(s: State, s': State, k: nat) {
    && Aborted(s', k)
    && (k < |s.publications| && s.publications[k].stage.Waiting? ==>
          s'.publications[k].stage.Waiting? || s'.publications[k].stage == Settled(false))
    && (k < |s.publications| && s.publications[k].stage == Settled(false) ==>
          s'.publications[k].stage == Settled(false))
  }

  lemma FinishAborted(s: State, j: nat, k: nat)
    requires Aborted(s, k) && j < |s.publications|
    ensures AbortedStays(s, Finish(s, j), k)
  {
    FinishFrame(s, j);
    if Current(s, s.publications[j]) {
      assert j != k;
      assert Finish(s, j).publications == InStage(s, j, Settled(true)).publications;
    }
  }

  lemma ResumeAborted(s: State, j: nat, k: nat)
    requires Aborted(s, k)
    ensures AbortedStays(s, Resumed(s, j), k)
  {
    if j < |s.publications| {
      FinishAborted(s, j, k);
    }
  }

  lemma StepAborted(s: State, e: Event, k: nat)
    requires Aborted(s, k)
    ensures AbortedStays(s, Step(s, e), k)
  {
    match e {
      case Resume(j) => ResumeAborted(s, j, k);
      case Recheck(j) =>
        if j < |s.publications| {
          FinishAborted(s, j, k);
        }
      case _ => OtherStepAborted(s, e, k);
    }
  }

  lemma OtherStepAborted(s: State, e: Event, k: nat)
    requires Aborted(s, k) && !e.Resume? && !e.Recheck?
    ensures AbortedStays(s, Step(s, e), k)
  {
    if Registers(e) {
      RegisteringTouchesNoPublication(s, e);
      NeverUnaborted(s, e);
    } else {
      StageAborted(s, e, k);
    }
  }

  lemma NeverUnaborted(s: State, e: Event)
    requires Registers(e)
    ensures s.aborted <= Step(s, e).aborted
  {
  }

  /** A publication that has been to the store goes on, but not to its update. */
  lemma InStageAborted(s: State, j: nat, stage: Stage, k: nat)
    requires Aborted(s, k) && j < |s.publications| && s.publications[j].stage.Active() && stage != Settled(true)
    ensures AbortedStays(s, InStage(s, j, stage), k)
  {
  }

  lemma StageAborted(s: State, e: Event, k: nat)
    requires Aborted(s, k) && !Registers(e) && !e.Resume? && !e.Recheck?
    ensures AbortedStays(s, Step(s, e), k)
  {
    match e {
      case StoreApplies(j) =>
        if j < |s.publications| && s.publications[j].stage == Persisting(false) {
          InStageAborted(s, j, Persisting(true), k);
        }
      case StoreFails(j) =>
        if j < |s.publications| && s.publications[j].stage.Persisting? {
          InStageAborted(s, j, Settled(false), k);
        }
      case StoreSucceeds(j) =>
        if j < |s.publications| && s.publications[j].stage == Persisting(true) {
          InStageAborted(s, j, Persisted, k);
        }
      case CleanChain(j) => CleanedFrame(s, j);
      case Publish(_, _, _, _, _) =>
    }
  }

  lemma AbortedTwice(s: State, t: State, u: State, k: nat)
    requires AbortedStays(s, t, k) && AbortedStays(t, u, k)
    ensures AbortedStays(s, u, k)
  {
  }

  /**
   Once the signal of a publication is aborted it never publishes, and one that still waited then never touches the
   store.
   */
  lemma {:induction false} AbortedNeverPublishes(events: seq<Event>, more: seq<Event>, k: nat)
    requires Aborted(Run(events), k)
    ensures AbortedStays(Run(events), Run(events + more), k)
  {
    if more == [] {
      assert events + more == events;
    } else {
      var init, e := more[..|more| - 1], more[|more| - 1];
      AbortedNeverPublishes(events, init, k);
      StepAborted(Run(events + init), e, k);
      AbortedTwice(Run(events), Run(events + init), Step(Run(events + init), e), k);
      RunContinues(events, more);
    }
  }

  // ----- What providers show --------------------------------------------------------------------

  /** `models` are the models of a catalog that belong to the provider: all of them, no others, in the same order. */
  ghost predicate OwnPart(id: ProviderId, catalog: Catalog, models: Catalog) {
    exists at: seq<nat> :: PicksOwn(id, catalog, models, at)
  }

  /** `at` are the positions of the provider's own models. */
  ghost predicate PicksOwn(id: ProviderId, catalog: Catalog, models: Catalog, at: seq<nat>) {
    && |at| == |models| && (forall i, j :: 0 <= i < j < |at| ==> at[i] < at[j])
    && (forall i :: 0 <= i < |at| ==> at[i] < |catalog| && models[i] == catalog[at[i]])
    && (forall k: nat :: k in at <==> k < |catalog| && catalog[k].provider == id)
  }

  lemma {:induction false} RestoredInTwo(id: ProviderId, a: Catalog, b: Catalog)
    ensures Restored(id, a + b) == Restored(id, a) + Restored(id, b)
  {
    if a == [] {
      assert a + b == b;
    } else {
      assert (a + b)[1..] == a[1..] + b;
      RestoredInTwo(id, a[1..], b);
      FirstInFront(if a[0].provider == id then [a[0]] else [], Restored(id, a[1..]), Restored(id, b));
    }
  }

  lemma FirstInFront(first: Catalog, more: Catalog, last: Catalog)
    ensures first + (more + last) == (first + more) + last
  {
  }

  lemma PicksMore(id: ProviderId, catalog: Catalog, models: Catalog, m: Model)
    requires OwnPart(id, catalog, models)
    ensures OwnPart(id, catalog + [m], models + if m.provider == id then [m] else [])
  {
    var at: seq<nat> :| PicksOwn(id, catalog, models, at);
    if m.provider == id {
      PicksOneMore(id, catalog, models, at, m);
    } else {
      PicksNoMore(id, catalog, models, at, m);
      assert models + [] == models;
    }
  }

  lemma PicksOneMore(id: ProviderId, catalog: Catalog, models: Catalog, at: seq<nat>, m: Model)
    requires PicksOwn(id, catalog, models, at) && m.provider == id
    ensures PicksOwn(id, catalog + [m], models + [m], at + [|catalog|])
  {
    var at', all := at + [|catalog|], catalog + [m];
    assert forall i :: 0 <= i < |at| ==> at'[i] == at[i] && at[i] in at;
    forall k: nat ensures k in at' <==> k < |all| && all[k].provider == id {
      assert k in at' <==> k in at || k == |catalog|;
      assert k < |catalog| ==> all[k] == catalog[k];
    }
  }

  lemma PicksNoMore(id: ProviderId, catalog: Catalog, models: Catalog, at: seq<nat>, m: Model)
    requires PicksOwn(id, catalog, models, at) && m.provider != id
    ensures PicksOwn(id, catalog + [m], models, at)
  {
    var all := catalog + [m];
    assert forall i :: 0 <= i < |at| ==> at[i] in at;
    forall k: nat ensures k in at <==> k < |all| && all[k].provider == id {
      assert k < |catalog| ==> all[k] == catalog[k];
    }
  }

  /** What a refresh restores are the provider's own cached models. */
  lemma {:induction false} RestoredIsOwnPart(id: ProviderId, catalog: Catalog)
    ensures OwnPart(id, catalog, Restored(id, catalog))
  {
    if catalog == [] {
      assert PicksOwn(id, [], [], []);
    } else {
      var init, m := catalog[..|catalog| - 1], catalog[|catalog| - 1];
      RestoredIsOwnPart(id, init);
      PicksMore(id, init, Restored(id, init), m);
      assert catalog == init + [m];
      RestoredInTwo(id, init, [m]);
      assert Restored(id, [m]) == if m.provider == id then [m] else [];
    }
  }

  /** What createProvider publishes: a cached catalog restored, or a fetched one persisted and then used. */
  ghost predicate Genuine(held: set<(ProviderId, Catalog)>, id: ProviderId, persist: Persist, update: Option<Catalog>) {
    match persist
    case Keep => update.Some? && exists c :: (id, c) in held && OwnPart(id, c, update.value)
    case Delete => update.None?
    case Write(c) => update == Some(c)
  }

  ghost predicate GenuineRun(events: seq<Event>) {
    forall n :: 0 <= n < |events| && events[n].Publish? ==>
      Genuine(Run(events[..n]).held, events[n].id, events[n].persist, events[n].update)
  }

  ghost predicate AllGenuine(ps: seq<Publication>, held: set<(ProviderId, Catalog)>) {
    forall i :: 0 <= i < |ps| ==> Genuine(held, ps[i].provider, ps[i].persist, ps[i].update)
  }

  /** A catalog the store held for the provider, whole or its models that belong to the provider. */
  ghost predicate WasHeld(held: set<(ProviderId, Catalog)>, id: ProviderId, models: Catalog) {
    exists c :: (id, c) in held && (models == c || OwnPart(id, c, models))
  }

  ghost predicate ModelsHeld(dynamicModels: map<Instance, Catalog>, held: set<(ProviderId, Catalog)>) {
    forall instance <- dynamicModels :: WasHeld(held, instance.id, dynamicModels[instance])
  }

  lemma FinishKeepsModels(s: State, k: nat)
    requires Sound(s) && AllGenuine(s.publications, s.held) && ModelsHeld(s.dynamicModels, s.held)
      && k < |s.publications|
    requires s.publications[k].stage.Persisted? || s.publications[k].persist.Keep?
    ensures ModelsHeld(Finish(s, k).dynamicModels, s.held)
  {
    var p := s.publications[k];
    if Current(s, p) && p.update.Some? {
      var instance := s.owners[(p.provider, p.generation)];
      assert instance.id == p.provider;
      assert Genuine(s.held, p.provider, p.persist, p.update);
      if p.persist.Write? {
        assert InStore(p, s.store);
      }
      assert WasHeld(s.held, instance.id, p.update.value);
    }
  }

  lemma GenuineGrows(held: set<(ProviderId, Catalog)>, held': set<(ProviderId, Catalog)>, ps: seq<Publication>,
                     dynamicModels: map<Instance, Catalog>)
    requires held <= held' && AllGenuine(ps, held) && ModelsHeld(dynamicModels, held)
    ensures AllGenuine(ps, held') && ModelsHeld(dynamicModels, held')
  {
    forall i | 0 <= i < |ps| ensures Genuine(held', ps[i].provider, ps[i].persist, ps[i].update) {
      assert Genuine(held, ps[i].provider, ps[i].persist, ps[i].update);
    }
    forall instance | instance in dynamicModels ensures WasHeld(held', instance.id, dynamicModels[instance]) {
      assert WasHeld(held, instance.id, dynamicModels[instance]);
    }
  }

  ghost predicate SameContents(ps: seq<Publication>, ps': seq<Publication>) {
    && |ps'| == |ps|
    && forall i :: 0 <= i < |ps| ==>
         && ps'[i].provider == ps[i].provider && ps'[i].persist == ps[i].persist && ps'[i].update == ps[i].update
         && ps'[i].previous == ps[i].previous
  }

  lemma InStageKeepsContents(s: State, k: nat, stage: Stage)
    requires k < |s.publications|
    ensures SameContents(s.publications, InStage(s, k, stage).publications)
  {
  }

  lemma FinishKeepsContents(s: State, k: nat)
    requires k < |s.publications|
    ensures SameContents(s.publications, Finish(s, k).publications)
  {
    InStageKeepsContents(s, k, Settled(false));
    InStageKeepsContents(s, k, Settled(true));
  }

  lemma ResumeKeepsContents(s: State, k: nat)
    ensures SameContents(s.publications, Resumed(s, k).publications)
  {
    if k < |s.publications| {
      InStageKeepsContents(s, k, Settled(false));
      InStageKeepsContents(s, k, Persisting(false));
      FinishKeepsContents(s, k);
    }
  }

  lemma ReturnKeepsContents(s: State, k: nat)
    ensures SameContents(s.publications, Failed(s, k).publications)
    ensures SameContents(s.publications, Succeeded(s, k).publications)
    ensures SameContents(s.publications, Rechecked(s, k).publications)
  {
    if k < |s.publications| {
      InStageKeepsContents(s, k, Settled(false));
      InStageKeepsContents(s, k, Persisted);
      FinishKeepsContents(s, k);
    }
  }

  lemma AppliedKeepsContents(s: State, k: nat)
    ensures SameContents(s.publications, Applied(s, k).publications)
  {
    if k < |s.publications| {
      InStageKeepsContents(s, k, Persisting(true));
    }
  }

  /** Only publishing adds to the queue; nothing changes what a queued publication says. */
  lemma StepKeepsContents(s: State, e: Event)
    requires !e.Publish?
    ensures SameContents(s.publications, Step(s, e).publications)
  {
    match e {
      case Resume(k) => ResumeKeepsContents(s, k);
      case StoreApplies(k) => AppliedKeepsContents(s, k);
      case StoreFails(k) => ReturnKeepsContents(s, k);
      case StoreSucceeds(k) => ReturnKeepsContents(s, k);
      case Recheck(k) => ReturnKeepsContents(s, k);
      case CleanChain(k) => CleanedFrame(s, k);
      case _ => RegisteringTouchesNoPublication(s, e);
    }
  }

  lemma AppendKeepsWaiting(ps: seq<Publication>, p: Publication)
    requires WaitsForEarlier(ps)
    requires p.previous.Some? ==> p.previous.value < |ps| && ps[p.previous.value].provider == p.provider
    ensures WaitsForEarlier(ps + [p])
  {
    assert forall i :: 0 <= i < |ps| ==> (ps + [p])[i] == ps[i];
  }

  lemma EnqueuedKeepsWaiting(s: State, p: Publication)
    requires WaitsForEarlier(s.publications) && ChainsEndLast(s.publications, s.chains)
    ensures WaitsForEarlier(Enqueued(s, p).publications)
  {
    if (p.provider, p.generation) in s.owners {
      AppendKeepsWaiting(s.publications, p.(previous := Lookup(s.chains, p.provider), stage := Waiting));
    }
  }

  lemma ContentsKeepWaiting(ps: seq<Publication>, ps': seq<Publication>)
    requires WaitsForEarlier(ps) && SameContents(ps, ps')
    ensures WaitsForEarlier(ps')
  {
  }

  lemma StepKeepsWaiting(s: State, e: Event)
    requires WaitsForEarlier(s.publications) && ChainsEndLast(s.publications, s.chains)
    ensures WaitsForEarlier(Step(s, e).publications)
  {
    if e.Publish? {
      EnqueuedKeepsWaiting(s, Publication(e.id, e.generation, e.signal, None, e.persist, e.update, Waiting));
    } else {
      StepKeepsContents(s, e);
      ContentsKeepWaiting(s.publications, Step(s, e).publications);
    }
  }

  lemma {:induction false} RunKeepsWaiting(events: seq<Event>)
    ensures WaitsForEarlier(Run(events).publications)
  {
    if events != [] {
      RunKeepsWaiting(events[..|events| - 1]);
      RunKeepsSound(events[..|events| - 1]);
      StepKeepsWaiting(Run(events[..|events| - 1]), events[|events| - 1]);
    }
  }

  lemma ReachedMayResume(s: State, k: nat)
    requires WaitsForEarlier(s.publications) && Reached(s.publications, k) && s.publications[k].stage.Waiting?
    ensures PreviousSettled(s, k)
  {
  }

  /** The chain never gets stuck: once everything before a waiting publication has settled, its turn has come. */
  lemma ChainNeverStuck(events: seq<Event>, k: nat)
    requires Reached(Run(events).publications, k) && Run(events).publications[k].stage.Waiting?
    ensures PreviousSettled(Run(events), k)
  {
    RunKeepsWaiting(events);
    ReachedMayResume(Run(events), k);
  }

  lemma StepKeepsGenuine(s: State, e: Event)
    requires AllGenuine(s.publications, s.held)
    requires e.Publish? ==> Genuine(s.held, e.id, e.persist, e.update)
    ensures AllGenuine(Step(s, e).publications, s.held)
  {
    if e.Publish? {
      assert forall i :: 0 <= i < |s.publications| ==> Step(s, e).publications[i] == s.publications[i];
    } else {
      StepKeepsContents(s, e);
    }
  }

  lemma ResumedModels(s: State, k: nat)
    requires k < |s.publications| && s.publications[k].stage.Waiting? && PreviousSettled(s, k)
    requires Current(s, s.publications[k]) && s.publications[k].persist.Keep?
    ensures Resumed(s, k).dynamicModels == Finish(s, k).dynamicModels
  {
  }

  lemma OtherwiseResumed(s: State, k: nat)
    requires k < |s.publications| && s.publications[k].stage.Waiting? && PreviousSettled(s, k) ==>
               !Current(s, s.publications[k]) || !s.publications[k].persist.Keep?
    ensures Resumed(s, k).dynamicModels == s.dynamicModels
  {
    if k < |s.publications| && s.publications[k].stage.Waiting? && PreviousSettled(s, k) {
      var p := s.publications[k];
      InStageFrame(s, k, Settled(false));
      PersistingFrame(s, k, Mutation(p.provider, p.generation, Generation(s, p.provider)));
    }
  }

  lemma ResumeKeepsModels(s: State, k: nat)
    requires Sound(s) && AllGenuine(s.publications, s.held) && ModelsHeld(s.dynamicModels, s.held)
    ensures Resumed(s, k).held == s.held && ModelsHeld(Resumed(s, k).dynamicModels, s.held)
  {
    ResumedFrame(s, k);
    if k < |s.publications| && s.publications[k].stage.Waiting? && PreviousSettled(s, k)
        && Current(s, s.publications[k]) && s.publications[k].persist.Keep? {
      ResumedModels(s, k);
      FinishKeepsModels(s, k);
    } else {
      OtherwiseResumed(s, k);
    }
  }

  lemma RecheckKeepsModels(s: State, k: nat)
    requires Sound(s) && AllGenuine(s.publications, s.held) && ModelsHeld(s.dynamicModels, s.held)
    ensures Rechecked(s, k).held == s.held && ModelsHeld(Rechecked(s, k).dynamicModels, s.held)
  {
    RecheckedFrame(s, k);
    if k < |s.publications| && s.publications[k].stage.Persisted? {
      FinishKeepsModels(s, k);
    }
  }

  lemma QuietStepKeepsModels(s: State, e: Event)
    requires !e.Resume? && !e.Recheck? && !e.StoreApplies?
    ensures Step(s, e).held == s.held && Step(s, e).dynamicModels == s.dynamicModels
  {
    if Registers(e) {
      RegisteringTouchesNoPublication(s, e);
    } else {
      QuietFrame(s, e);
    }
  }

  lemma StepKeepsModels(s: State, e: Event)
    requires Sound(s) && AllGenuine(s.publications, s.held) && ModelsHeld(s.dynamicModels, s.held)
    ensures s.held <= Step(s, e).held && ModelsHeld(Step(s, e).dynamicModels, Step(s, e).held)
  {
    match e {
      case Resume(k) => ResumeKeepsModels(s, k);
      case Recheck(k) => RecheckKeepsModels(s, k);
      case StoreApplies(k) => GenuineGrows(s.held, Applied(s, k).held, s.publications, s.dynamicModels);
      case _ => QuietStepKeepsModels(s, e);
    }
  }

  /**
   A provider made by createProvider shows its baseline alone, or with a catalog of its own that the store held at
   some point, whatever refreshes, aborts, failures and replacements of the provider interleave.
   */
  lemma {:induction false} DynamicModelsWereStored(events: seq<Event>)
    requires GenuineRun(events)
    ensures ModelsHeld(Run(events).dynamicModels, Run(events).held)
    ensures AllGenuine(Run(events).publications, Run(events).held)
  {
    if events != [] {
      var init, e := events[..|events| - 1], events[|events| - 1];
      forall n | 0 <= n < |init| && init[n].Publish?
        ensures Genuine(Run(init[..n]).held, init[n].id, init[n].persist, init[n].update)
      {
        assert init[..n] == events[..n] && init[n] == events[n];
      }
      DynamicModelsWereStored(init);
      RunKeepsSound(init);
      var s, s' := Run(init), Step(Run(init), e);
      StepKeepsModels(s, e);
      StepKeepsGenuine(s, e);
      GenuineGrows(s.held, s'.held, s'.publications, map[]);
    }
  }

  // ----- What an undisturbed publication comes to -----------------------------------------------

  /** Nothing stands in the way of a refresh: it is the current one, and no publication of its provider is under way. */
  predicate Unhindered(s: State, id: ProviderId, generation: nat, signal: Signal) {
    && signal !in s.aborted && id in s.generations && s.generations[id] == generation
    && (id, generation) in s.owners
    && (id in s.chains ==>
          s.chains[id] < |s.publications| && s.publications[s.chains[id]].stage.Settled?)
  }

  /** A publication that persists nothing is over once its turn comes, and its models are shown. */
  lemma RestoreIsShown(s: State, id: ProviderId, generation: nat, signal: Signal, models: Catalog)
    requires Unhindered(s, id, generation, signal)
    ensures var k := |s.publications|;
      var queued := Step(s, Publish(id, generation, signal, Keep, Some(models)));
      var done := Step(queued, Resume(k));
      && Lookup(done.dynamicModels, s.owners[(id, generation)]) == Some(models)
      && k < |done.publications| && done.publications[k].stage == Settled(true)
      && Unhindered(done, id, generation, signal) && done.store == s.store && done.owners == s.owners
  {
    var k, queued := |s.publications|, Step(s, Publish(id, generation, signal, Keep, Some(models)));
    assert queued.publications[k]
        == Publication(id, generation, signal, Lookup(s.chains, id), Keep, Some(models), Waiting);
    assert PreviousSettled(queued, k) && Current(queued, queued.publications[k]);
  }

  lemma WriteIsQueued(s: State, id: ProviderId, generation: nat, signal: Signal, models: Catalog) returns (t: State)
    requires Unhindered(s, id, generation, signal)
    ensures var k := |s.publications|;
      && t == Step(Step(s, Publish(id, generation, signal, Write(models), Some(models))), Resume(k))
      && |t.publications| == k + 1 && t.publications[k].stage == Persisting(false)
      && t.publications[k].provider == id && t.publications[k].generation == generation
      && t.publications[k].signal == signal && t.publications[k].persist == Write(models)
      && t.publications[k].update == Some(models)
      && t.aborted == s.aborted && t.generations == s.generations && t.owners == s.owners
  {
    var k, queued := |s.publications|, Step(s, Publish(id, generation, signal, Write(models), Some(models)));
    assert queued.publications[k]
        == Publication(id, generation, signal, Lookup(s.chains, id), Write(models), Some(models), Waiting);
    assert PreviousSettled(queued, k) && Current(queued, queued.publications[k]);
    t := Step(queued, Resume(k));
  }

  lemma WriteIsFinished(t: State, k: nat, models: Catalog)
    requires k < |t.publications| && t.publications[k].stage == Persisting(false)
    requires t.publications[k].persist == Write(models) && t.publications[k].update == Some(models)
    requires Current(t, t.publications[k]) && (t.publications[k].provider, t.publications[k].generation) in t.owners
    ensures var p, done := t.publications[k], Step(Step(Step(t, StoreApplies(k)), StoreSucceeds(k)), Recheck(k));
      && Lookup(done.store, p.provider) == Some(models)
      && Lookup(done.dynamicModels, t.owners[(p.provider, p.generation)]) == Some(models)
      && k < |done.publications| && done.publications[k].stage == Settled(true)
  {
    var applied := Step(t, StoreApplies(k));
    assert applied.publications[k] == t.publications[k].(stage := Persisting(true));
    var stored := Step(applied, StoreSucceeds(k));
    assert stored.publications[k] == t.publications[k].(stage := Persisted);
  }

  /** A publication that writes a catalog has it in the store and shown once the store has answered. */
  lemma WriteIsShown(s: State, id: ProviderId, generation: nat, signal: Signal, models: Catalog)
    requires Unhindered(s, id, generation, signal)
    ensures var k := |s.publications|;
      var queued := Step(s, Publish(id, generation, signal, Write(models), Some(models)));
      var done := Step(Step(Step(Step(queued, Resume(k)), StoreApplies(k)), StoreSucceeds(k)), Recheck(k));
      && Lookup(done.store, id) == Some(models)
      && Lookup(done.dynamicModels, s.owners[(id, generation)]) == Some(models)
      && k < |done.publications| && done.publications[k].stage == Settled(true)
  {
    var t := WriteIsQueued(s, id, generation, signal, models);
    WriteIsFinished(t, |s.publications|, models);
  }
}
