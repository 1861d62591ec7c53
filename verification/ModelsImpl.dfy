/**
 The class behind the refresh protocol (packages/ai/src/models.ts): every method is proved to take exactly the step
 of the protocol it stands for and to keep the record of all of them, so what ModelRefresh proves of runs holds of the
 object after any interleaving of these methods. StoreMutates and StoreAnswers are the store's own turns.
 */
module ModelCollections {
  import opened Wrappers
  import opened ModelRefresh

  /** Steps taken one after another. */
  function Steps(s: State, events: seq<Event>): State {
    if events == [] then s else Step(Steps(s, events[..|events| - 1]), events[|events| - 1])
  }

  lemma StepsMore(s: State, events: seq<Event>, i: nat, before: seq<Event>)
    requires i < |events|
    ensures Steps(s, events[..i + 1]) == Step(Steps(s, events[..i]), events[i])
    ensures before + events[..i + 1] == before + events[..i] + [events[i]]
  {
    assert events[..i + 1][..i] == events[..i];
  }

  function Beginnings(selected: seq<ProviderId>): seq<Event> {
    seq(|selected|, i requires 0 <= i < |selected| => BeginRefresh(selected[i]))
  }

  /** Nothing else of its provider is in the store or on its way back. */
  ghost predicate OnlyActive(ps: seq<Publication>, k: nat)
    requires k < |ps|
  {
    forall i :: 0 <= i < |ps| ==> ps[i].provider == ps[k].provider && ps[i].stage.Active() ==> i == k
  }

  /** Superseding one provider after a set of others is superseding the larger set. */
  lemma SupersedeOneMore(s: State, ids: set<ProviderId>, id: ProviderId)
    requires id !in ids
    ensures Supersede(SupersedeAll(s, ids), id) == SupersedeAll(s, ids + {id})
  {
    var t, u := Supersede(SupersedeAll(s, ids), id), SupersedeAll(s, ids + {id});
    assert t.generations == u.generations;
    assert t.controllers == u.controllers;
    assert t.aborted == u.aborted;
  }

  lemma SupersedeNext(s: State, ids: set<ProviderId>, left: set<ProviderId>, id: ProviderId)
    requires id in left && left <= ids
    ensures Supersede(SupersedeAll(s, ids - left), id) == SupersedeAll(s, ids - (left - {id}))
  {
    SupersedeOneMore(s, ids - left, id);
    assert ids - left + {id} == ids - (left - {id});
  }

  lemma SupersedeBounds(s: State, ids: set<ProviderId>)
    ensures SupersedeAll(s, ids - ids) == s && SupersedeAll(s, ids - {}) == SupersedeAll(s, ids)
  {
    assert ids - ids == {} && ids - {} == ids;
    SupersedeNone(s);
  }

  lemma SupersedeNone(s: State)
    ensures SupersedeAll(s, {}) == s
  {
    var t := SupersedeAll(s, {});
    assert t.generations == s.generations;
    assert t.controllers == s.controllers;
    assert t.aborted == s.aborted;
  }

  class ModelsImpl {
    var providers: map<ProviderId, Instance>
    var refreshGenerations: map<ProviderId, nat>
    var refreshControllers: map<ProviderId, Signal>
    var publicationChains: map<ProviderId, nat>

    // The promises, signals and closures that the fields above refer to.
    var publications: seq<Publication>
    var aborted: set<Signal>
    var nextSignal: Signal
    var owners: map<(ProviderId, nat), Instance>
    var dynamicModels: map<Instance, Catalog>

    // The store, and what happened to it.
    var store: map<ProviderId, Catalog>
    ghost var held: set<(ProviderId, Catalog)>
    ghost var mutations: seq<Mutation>
    ghost var updates: seq<Updated>

    /** Everything that has happened to the collection and its store. */
    ghost var history: seq<Event>

    ghost function View(): State
      reads this
    {
      State(providers, refreshGenerations, refreshControllers, publicationChains, publications, aborted, nextSignal,
            store, dynamicModels, owners, held, mutations, updates)
    }

    /** The fields are where the events so far lead, so what is proved of every run holds of the object. */
    ghost predicate Valid()
      reads this
    {
      View() == Run(history)
    }

    /**
     What every public method does: it is the step of one event, which goes on record. Nothing that a superseded refresh
     publishes starts, and an update that runs is that of the current generation, on the registered object, over its own
     catalog.
     */
    twostate predicate Took(e: Event)
      reads this
    {
      && Valid() && history == old(history) + [e] && View() == Step(old(View()), e)
      && StartedSince(old(View()), View())
      && forall i :: |old(updates)| <= i < |updates| ==> UpdateSound(updates[i])
    }

    /** Puts an event on record whose step the fields have just taken. */
    ghost method Note(e: Event, before: State)
      requires before == Run(history) && View() == Step(before, e)
      modifies `history
      ensures Valid() && history == old(history) + [e] && StartedSince(before, View())
      ensures forall i :: 0 <= i < |updates| ==> UpdateSound(updates[i])
    {
      assert (history + [e])[..|history|] == history;
      SupersededNeverPublishes(history, [e]);
      history := history + [e];
      RunKeepsSound(history);
    }

    constructor ()
      ensures Valid() && history == [] && View() == EMPTY
    {
      history := [];
      providers, refreshGenerations, refreshControllers, publicationChains := map[], map[], map[], map[];
      publications, aborted, nextSignal, owners, dynamicModels := [], {}, 0, map[], map[];
      store, held, mutations, updates := map[], {}, [], [];
    }

    /** The provider is in a new generation, without a controller; the one it had is aborted. */
    twostate predicate Superseded(id: ProviderId)
      reads `refreshGenerations, `refreshControllers, `aborted
    {
      && refreshGenerations == old(refreshGenerations)[id :=
           1 + if id in old(refreshGenerations) then old(refreshGenerations)[id] else 0]
      && refreshControllers == old(refreshControllers) - {id}
      && aborted == old(aborted) + if id in old(refreshControllers) then {old(refreshControllers)[id]} else {}
    }

    method SupersedeProviderRefresh(providerId: ProviderId) returns (generation: nat)
      modifies `refreshGenerations, `refreshControllers, `aborted
      ensures View() == Supersede(old(View()), providerId) && Superseded(providerId)
      ensures generation == old(Generation(View(), providerId)) + 1
    {
      generation := (if providerId in refreshGenerations then refreshGenerations[providerId] else 0) + 1;
      refreshGenerations := refreshGenerations[providerId := generation];
      if providerId in refreshControllers {
        var previous := refreshControllers[providerId];
        refreshControllers := refreshControllers - {providerId};
        aborted := aborted + {previous};
      } else {
        assert refreshControllers - {providerId} == refreshControllers;
      }
    }

    method SetProvider(provider: Instance)
      requires Valid()
      modifies this
      ensures Took(Event.SetProvider(provider)) && Superseded(provider.id)
      ensures providers == old(providers)[provider.id := provider]
    {
      ghost var before := View();
      var _ := SupersedeProviderRefresh(provider.id);
      providers := providers[provider.id := provider];
      Note(Event.SetProvider(provider), before);
    }

    method DeleteProvider(id: ProviderId)
      requires Valid()
      modifies this
      ensures Took(Event.DeleteProvider(id)) && Superseded(id) && providers == old(providers) - {id}
    {
      ghost var before := View();
      var _ := SupersedeProviderRefresh(id);
      providers := providers - {id};
      Note(Event.DeleteProvider(id), before);
    }

    method SupersedeEach(ids: set<ProviderId>)
      modifies `refreshGenerations, `refreshControllers, `aborted
      ensures View() == SupersedeAll(old(View()), ids)
    {
      var left := ids;
      ghost var start := View();
      SupersedeBounds(start, ids);
      while left != {}
        invariant left <= ids && View() == SupersedeAll(start, ids - left)
        decreases |left|
      {
        var id :| id in left;
        SupersedeNext(start, ids, left, id);
        var _ := SupersedeProviderRefresh(id);
        left := left - {id};
      }
    }

    method ClearProviders()
      requires Valid()
      modifies this
      ensures Took(Event.ClearProviders) && providers == map[] && refreshControllers == map[]
      ensures forall id :: id in old(providers) || id in old(refreshControllers) ==>
        id in refreshGenerations && refreshGenerations[id] == old(Generation(View(), id)) + 1
      ensures forall id <- old(refreshControllers) :: old(refreshControllers)[id] in aborted
    {
      ghost var before := View();
      SupersedeEach(providers.Keys + refreshControllers.Keys);
      providers := map[];
      Note(Event.ClearProviders, before);
    }

    method BeginProviderRefresh(providerId: ProviderId) returns (generation: nat, controller: Signal)
      requires Valid() && providerId in providers
      modifies this
      ensures Took(BeginRefresh(providerId)) && providers == old(providers)
      ensures generation == Generation(View(), providerId) && (providerId, generation) in owners
      ensures controller == old(nextSignal) && Lookup(refreshControllers, providerId) == Some(controller)
      ensures generation
           == 1 + if providerId in old(refreshGenerations) then old(refreshGenerations)[providerId] else 0
      ensures Lookup(owners, (providerId, generation)) == Some(providers[providerId])
      ensures providerId in old(refreshControllers) ==> old(refreshControllers)[providerId] in aborted
    {
      ghost var before := View();
      generation, controller := StartRefresh(providerId);
      Note(BeginRefresh(providerId), before);
    }

    method StartRefresh(providerId: ProviderId) returns (generation: nat, controller: Signal)
      requires providerId in providers
      modifies `refreshGenerations, `refreshControllers, `aborted, `nextSignal, `owners
      ensures View() == Step(old(View()), BeginRefresh(providerId))
      ensures generation == Generation(View(), providerId) && (providerId, generation) in owners
      ensures controller == old(nextSignal) && Lookup(refreshControllers, providerId) == Some(controller)
    {
      generation := SupersedeProviderRefresh(providerId);
      controller := nextSignal;
      nextSignal := nextSignal + 1;
      refreshControllers := refreshControllers[providerId := controller];
      owners := owners[(providerId, generation) := providers[providerId]];
    }

    /** The first, synchronous part of refresh: every selected provider begins a refresh of its own. */
    method BeginRefreshes(selected: seq<ProviderId>) returns (begun: seq<(nat, Signal)>)
      requires Valid() && forall i :: 0 <= i < |selected| ==> selected[i] in providers
      modifies this
      ensures Valid() && View() == Steps(old(View()), Beginnings(selected))
      ensures history == old(history) + Beginnings(selected)
      ensures |begun| == |selected| && providers == old(providers)
    {
      begun := [];
      ghost var events := Beginnings(selected);
      for i := 0 to |selected|
        invariant Valid() && |begun| == i && providers == old(providers)
        invariant View() == Steps(old(View()), events[..i]) && history == old(history) + events[..i]
      {
        var generation, controller := BeginNext(selected[i], events, i, old(View()), old(history));
        begun := begun + [(generation, controller)];
      }
      assert events[..|selected|] == events;
    }

    method BeginNext(providerId: ProviderId, ghost events: seq<Event>, ghost i: nat, ghost start: State,
                     ghost before: seq<Event>)
      returns (generation: nat, controller: Signal)
      requires Valid() && providerId in providers && i < |events| && events[i] == BeginRefresh(providerId)
      requires View() == Steps(start, events[..i]) && history == before + events[..i]
      modifies this
      ensures Valid() && providers == old(providers)
      ensures View() == Steps(start, events[..i + 1]) && history == before + events[..i + 1]
    {
      generation, controller := BeginProviderRefresh(providerId);
      StepsMore(start, events, i, before);
    }

    /** The `finally` of a refresh. */
    method FinishRefresh(providerId: ProviderId, controller: Signal)
      requires Valid()
      modifies `history, `refreshControllers
      ensures Took(EndRefresh(providerId, controller))
      ensures refreshControllers == if providerId in old(refreshControllers)
                                       && old(refreshControllers)[providerId] == controller
                                    then old(refreshControllers) - {providerId} else old(refreshControllers)
    {
      ghost var before := View();
      if providerId in refreshControllers && refreshControllers[providerId] == controller {
        refreshControllers := refreshControllers - {providerId};
      }
      Note(EndRefresh(providerId, controller), before);
    }

    method PublishProviderModels(providerId: ProviderId, generation: nat, signal: Signal,
                                 persist: Persist, update: Option<Catalog>) returns (queued: nat)
      requires Valid() && (providerId, generation) in owners
      modifies `history, `publications, `publicationChains
      ensures Took(Publish(providerId, generation, signal, persist, update))
      ensures queued == |old(publications)| && publicationChains == old(publicationChains)[providerId := queued]
      ensures var previous :=
          if providerId in old(publicationChains) then Some(old(publicationChains)[providerId]) else None;
        publications == old(publications)
                        + [Publication(providerId, generation, signal, previous, persist, update, Waiting)]
    {
      ghost var before := View();
      var previous := if providerId in publicationChains then Some(publicationChains[providerId]) else None;
      queued := |publications|;
      publications := publications + [Publication(providerId, generation, signal, previous, persist, update, Waiting)];
      publicationChains := publicationChains[providerId := queued];
      Note(Publish(providerId, generation, signal, persist, update), before);
    }

    method SetStage(k: nat, stage: Stage)
      requires k < |publications|
      modifies `publications
      ensures publications == old(publications)[k := old(publications)[k].(stage := stage)]
    {
      publications := publications[k := publications[k].(stage := stage)];
    }

    /** `signal.aborted || refreshGenerations.get(providerId) !== generation`, negated. */
    predicate StillCurrent(p: Publication): (r: bool)
      reads `aborted, `refreshGenerations
      ensures p.signal in aborted ==> !r
      ensures r ==> p.provider in refreshGenerations && refreshGenerations[p.provider] == p.generation
    {
      p.signal !in aborted && p.provider in refreshGenerations && refreshGenerations[p.provider] == p.generation
    }

    /** The second check and the update, at the end of publication k. */
    method FinishPublication(k: nat)
      requires k < |publications|
      modifies `publications, `dynamicModels, `updates
      ensures View() == Finish(old(View()), k) && |publications| == |old(publications)|
      ensures publications[k].stage == Settled(old(StillCurrent(publications[k])))
      ensures !old(StillCurrent(publications[k])) ==> updates == old(updates) && dynamicModels == old(dynamicModels)
    {
      var p := publications[k];
      if !StillCurrent(p) {
        SetStage(k, Settled(false));
      } else {
        if p.update.Some? && (p.provider, p.generation) in owners {
          var instance := owners[(p.provider, p.generation)];
          dynamicModels := dynamicModels[instance := p.update.value];
          updates := updates + [Updated(p.provider, p.generation, refreshGenerations[p.provider], instance,
                                        Lookup(providers, p.provider), p.persist, Lookup(store, p.provider))];
        }
        SetStage(k, Settled(true));
      }
    }

    /**
     Publication k goes on once the one before it has settled, and then everything queued before it for its provider
     has: the first check, then the store or the end. No other publication of the provider is in the store.
     */
    method ResumePublication(k: nat)
      requires Valid() && k < |publications| && publications[k].stage.Waiting? && PreviousSettled(View(), k)
      modifies `publications, `dynamicModels, `updates, `mutations, `history
      ensures Took(Resume(k)) && Reached(publications, k)
      ensures publications[k].stage.Active() ==> OnlyActive(publications, k)
      ensures publications[k].stage == if !old(StillCurrent(publications[k])) then Settled(false)
                                       else if old(publications)[k].persist.Keep? then Settled(true)
                                       else Persisting(false)
      ensures !old(StillCurrent(publications[k])) ==> mutations == old(mutations) && updates == old(updates)
    {
      ghost var before := View();
      RunKeepsSound(history);
      ResumedIsReached(before, k);
      GoOn(k);
      Note(Resume(k), before);
      RunKeepsSound(history);
      StartedIsReached(publications, k);
      if publications[k].stage.Active() {
        ActiveIsOnly(k);
      }
    }

    lemma ActiveIsOnly(k: nat)
      requires Valid() && k < |publications| && publications[k].stage.Active()
      ensures OnlyActive(publications, k)
    {
      forall i | 0 <= i < |publications| && publications[i].provider == publications[k].provider
                 && publications[i].stage.Active()
        ensures i == k
      {
        StoreMutationsNeverOverlap(history, i, k);
      }
    }

    method GoOn(k: nat)
      requires k < |publications| && publications[k].stage.Waiting? && PreviousSettled(View(), k)
      modifies `publications, `dynamicModels, `updates, `mutations
      ensures View() == Step(old(View()), Resume(k))
      ensures |publications| == |old(publications)| && !publications[k].stage.Waiting?
      ensures publications[k].stage == if !old(StillCurrent(publications[k])) then Settled(false)
                                       else if old(publications)[k].persist.Keep? then Settled(true)
                                       else Persisting(false)
      ensures !old(StillCurrent(publications[k])) ==> mutations == old(mutations) && updates == old(updates)
    {
      var p := publications[k];
      if !StillCurrent(p) {
        SetStage(k, Settled(false));
      } else if p.persist.Keep? {
        FinishPublication(k);
      } else {
        mutations := mutations + [Mutation(p.provider, p.generation, refreshGenerations[p.provider])];
        SetStage(k, Persisting(false));
      }
    }

    /** The store performs the mutation of publication k. */
    method StoreMutates(k: nat)
      requires Valid() && k < |publications| && publications[k].stage == Persisting(false)
      modifies `publications, `store, `held, `history
      ensures Took(StoreApplies(k))
      ensures var p := old(publications)[k];
        && (p.persist.Write? ==> store == old(store)[p.provider := p.persist.catalog])
        && (!p.persist.Write? ==> store == old(store) - {p.provider})
    {
      ghost var before := View();
      Mutate(k);
      Note(StoreApplies(k), before);
    }

    method Mutate(k: nat)
      requires k < |publications| && publications[k].stage == Persisting(false)
      modifies `publications, `store, `held
      ensures View() == Step(old(View()), StoreApplies(k))
      ensures var p := old(publications)[k];
        && (p.persist.Write? ==> store == old(store)[p.provider := p.persist.catalog])
        && (!p.persist.Write? ==> store == old(store) - {p.provider})
    {
      var p := publications[k];
      match p.persist {
        case Write(catalog) =>
          store := store[p.provider := catalog];
          held := held + {(p.provider, catalog)};
        case _ => store := store - {p.provider};
      }
      SetStage(k, Persisting(true));
    }

    /** The store's promise rejects, before or after the mutation, or resolves after it. */
    method StoreAnswers(k: nat, succeeds: bool)
      requires Valid() && k < |publications| && publications[k].stage.Persisting?
      requires succeeds ==> publications[k].stage.applied
      modifies `publications, `history
      ensures Took(if succeeds then StoreSucceeds(k) else StoreFails(k))
      ensures publications == old(publications)[k := old(publications)[k].(stage :=
        if succeeds then Persisted else Settled(false))]
    {
      ghost var before := View();
      SetStage(k, if succeeds then Persisted else Settled(false));
      Note(if succeeds then StoreSucceeds(k) else StoreFails(k), before);
    }

    /** A caller's signal is aborted. */
    method AbortSignal(signal: Signal)
      requires Valid()
      modifies `aborted, `history
      ensures Took(Abort(signal)) && aborted == old(aborted) + {signal}
    {
      ghost var before := View();
      aborted := aborted + {signal};
      Note(Abort(signal), before);
    }

    /** Publication k is back from the store. */
    method RecheckPublication(k: nat)
      requires Valid() && k < |publications| && publications[k].stage.Persisted?
      modifies `history, `publications, `dynamicModels, `updates
      ensures |publications| == |old(publications)|
      ensures publications[k].stage == Settled(old(StillCurrent(publications[k])))
      ensures Took(Recheck(k))
      ensures !old(StillCurrent(publications[k])) ==> updates == old(updates) && dynamicModels == old(dynamicModels)
    {
      ghost var before := View();
      FinishPublication(k);
      Note(Recheck(k), before);
    }

    /** What runs after the tail of publication k: the chain goes unless something was queued behind it. */
    method CleanPublicationChain(k: nat)
      requires Valid() && k < |publications| && publications[k].stage.Settled?
      modifies `history, `publicationChains
      ensures Took(CleanChain(k))
      ensures var id := old(publications)[k].provider;
        publicationChains == if id in old(publicationChains) && old(publicationChains)[id] == k
                             then old(publicationChains) - {id} else old(publicationChains)
    {
      ghost var before := View();
      var providerId := publications[k].provider;
      if providerId in publicationChains && publicationChains[providerId] == k {
        publicationChains := publicationChains - {providerId};
      }
      Note(CleanChain(k), before);
    }
  }

  // ----- What a provider shows ------------------------------------------------------------------

  function FirstWith(models: Catalog, id: string): Option<Model> {
    if models == [] then None
    else if models[0].id == id then Some(models[0])
    else FirstWith(models[1..], id)
  }

  function LastWith(models: Catalog, id: string): Option<Model> {
    if models == [] then None
    else if models[|models| - 1].id == id then Some(models[|models| - 1])
    else LastWith(models[..|models| - 1], id)
  }

  lemma {:induction false} FirstWithNone(models: Catalog, id: string)
    requires forall j :: 0 <= j < |models| ==> models[j].id != id
    ensures FirstWith(models, id) == None
  {
    if models != [] {
      FirstWithNone(models[1..], id);
    }
  }

  lemma {:induction false} FirstWithReplaced(models: Catalog, i: nat, model: Model, id: string)
    requires i < |models| && models[i].id == model.id && forall j :: 0 <= j < i ==> models[j].id != model.id
    ensures FirstWith(models[i := model], id) == if id == model.id then Some(model) else FirstWith(models, id)
  {
    if i == 0 {
      assert models[i := model][1..] == models[1..];
    } else {
      assert models[0].id != model.id;
      assert models[i := model][1..] == models[1..][i - 1 := model];
      forall j | 0 <= j < i - 1 ensures models[1..][j].id != model.id {
        assert models[1..][j] == models[j + 1];
      }
      FirstWithReplaced(models[1..], i - 1, model, id);
    }
  }

  lemma {:induction false} FirstWithAppended(models: Catalog, model: Model, id: string)
    ensures FirstWith(models + [model], id) ==
      if FirstWith(models, id).Some? then FirstWith(models, id) else if id == model.id then Some(model) else None
  {
    if models == [] {
      assert [model][1..] == [];
    } else {
      assert (models + [model])[1..] == models[1..] + [model];
      FirstWithAppended(models[1..], model, id);
    }
  }

  /** What a look-up by id must find: the newest dynamic model with the id, else the baseline's. */
  function Shown(baseline: Catalog, dynamic: Catalog, id: string): Option<Model> {
    if LastWith(dynamic, id).Some? then LastWith(dynamic, id) else FirstWith(baseline, id)
  }

  method FindIndex(models: Catalog, id: string) returns (index: Option<nat>)
    ensures match index
      case None => forall j :: 0 <= j < |models| ==> models[j].id != id
      case Some(i) => i < |models| && models[i].id == id && forall j :: 0 <= j < i ==> models[j].id != id
  {
    for i := 0 to |models|
      invariant forall j :: 0 <= j < i ==> models[j].id != id
    {
      if models[i].id == id {
        return Some(i);
      }
    }
    return None;
  }

  lemma MergedOneMore(baseline: Catalog, dynamic: Catalog, i: nat, merged: Catalog, index: Option<nat>,
                      merged': Catalog, id: string)
    requires i < |dynamic| && FirstWith(merged, id) == Shown(baseline, dynamic[..i], id)
    requires match index
      case None => (forall j :: 0 <= j < |merged| ==> merged[j].id != dynamic[i].id) && merged' == merged + [dynamic[i]]
      case Some(k) =>
        && k < |merged| && merged[k].id == dynamic[i].id && (forall j :: 0 <= j < k ==> merged[j].id != dynamic[i].id)
        && merged' == merged[k := dynamic[i]]
    ensures FirstWith(merged', id) == Shown(baseline, dynamic[..i + 1], id)
  {
    assert dynamic[..i + 1][..i] == dynamic[..i] && dynamic[..i + 1][i] == dynamic[i];
    match index {
      case None =>
        FirstWithAppended(merged, dynamic[i], id);
        FirstWithNone(merged, dynamic[i].id);
      case Some(k) =>
        FirstWithReplaced(merged, k, dynamic[i], id);
    }
  }

  /**
   currentModels: the baseline in its order with dynamic models in place of those of the same id, then the rest. A
   look-up by id (Models.getModel) finds the newest dynamic model, else the baseline's, and the baseline's places stay.
   */
  method CurrentModels(baseline: Catalog, dynamic: Catalog) returns (merged: Catalog)
    ensures forall id :: FirstWith(merged, id) == Shown(baseline, dynamic, id)
    ensures |baseline| <= |merged| <= |baseline| + |dynamic|
    ensures forall k :: 0 <= k < |baseline| ==> merged[k].id == baseline[k].id
    ensures forall k :: 0 <= k < |merged| ==> merged[k] in baseline || merged[k] in dynamic
  {
    merged := baseline;
    for i := 0 to |dynamic|
      invariant forall id :: FirstWith(merged, id) == Shown(baseline, dynamic[..i], id)
      invariant |baseline| <= |merged| <= |baseline| + i
      invariant forall k :: 0 <= k < |baseline| ==> merged[k].id == baseline[k].id
      invariant forall k :: 0 <= k < |merged| ==> merged[k] in baseline || merged[k] in dynamic
    {
      var model := dynamic[i];
      var index := FindIndex(merged, model.id);
      var merged' := if index.Some? then merged[index.value := model] else merged + [model];
      forall id ensures FirstWith(merged', id) == Shown(baseline, dynamic[..i + 1], id) {
        MergedOneMore(baseline, dynamic, i, merged, index, merged', id);
      }
      merged := merged';
    }
    assert dynamic[..|dynamic|] == dynamic;
  }
}
