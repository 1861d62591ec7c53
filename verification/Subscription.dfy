/**
 A live service subscription of the RPC client (packages/client/src/client.ts): wire updates that arrive before the
 snapshot wait undecoded, decoded updates wait until the subscriber starts, and deliveries run one after another.
 */
module Subscriptions {
  import opened Wrappers

  type Wire = string
  type Update = string

  /**
   The stateful decoder: what it was fed before decides what the next message means, so it is a function of its whole
   history. The first message is the snapshot. None: the message is refused.
   */
  type Decoder = seq<Wire> -> Option<Update>

  datatype Decoding = Decoding(updates: seq<Update>, fed: seq<Wire>, ok: bool)

  /** Decodes messages in order up to the first that is refused. */
  function DecodeRun(decode: Decoder, fed: seq<Wire>, wires: seq<Wire>): Decoding
    decreases |wires|
  {
    if wires == [] then Decoding([], fed, true)
    else
      var last := |wires| - 1;
      var before := DecodeRun(decode, fed, wires[..last]);
      if !before.ok then before
      else
        match decode(before.fed + [wires[last]])
        case None => Decoding(before.updates, before.fed + [wires[last]], false)
        case Some(u) => Decoding(before.updates + [u], before.fed + [wires[last]], true)
  }

  /**
   `registered`: in the table of listeners. `obtained`: the subscriber holds the subscription. `scheduled` and
   `handled`: the delivery chain. `arrived`: every update that came while registered.
   */
  datatype State = State(
    registered: bool, responded: bool, hydrated: bool, obtained: bool, ready: bool, disposed: bool, cleared: bool,
    snapshot: Wire, fed: seq<Wire>, queuedWire: seq<Wire>, queued: seq<Update>,
    scheduled: seq<Update>, handled: seq<Update>, busy: bool, arrived: seq<Wire>)

  const SUBSCRIBED := State(true, false, false, false, false, false, false, "", [], [], [], [], [], false, [])

  datatype Event =
    | Arrives(update: Wire)
    | Responds(snapshot: Wire)
    | Obtain
    | Start
    | Dispose
    | ClearQueues
    | Unregister
    | RunNext
    | ListenerDone

  // ----- The code -------------------------------------------------------------------------------

  /** #handleMessage on a service update. */
  function Arrived(decode: Decoder, s: State, update: Wire): State {
    if !s.registered then s
    else
      var t := s.(arrived := s.arrived + [update]);
      if !s.hydrated then t.(queuedWire := s.queuedWire + [update])
      else
        match decode(s.fed + [update])
        case None => t.(fed := s.fed + [update], registered := false)
        case Some(u) =>
          if s.ready then t.(fed := s.fed + [update], scheduled := s.scheduled + [u])
          else t.(fed := s.fed + [update], queued := s.queued + [u])
  }

  /**
   The response of the subscribe request: the snapshot first, then what waited for it. A refusal fails the connection.
   */
  function Responded(decode: Decoder, s: State, snapshot: Wire): State {
    if s.responded then s
    else
      var t := s.(responded := true, snapshot := snapshot, fed := [snapshot]);
      if decode([snapshot]).None? then t.(registered := false)
      else ReadWaiting(t, DecodeRun(decode, [snapshot], s.queuedWire))
  }

  /** The snapshot has been read, and then the updates that waited for it. */
  function ReadWaiting(s: State, run: Decoding): State {
    s.(hydrated := true, fed := run.fed, queuedWire := [], queued := s.queued + run.updates,
       registered := s.registered && run.ok)
  }

  function Step(decode: Decoder, s: State, e: Event): State {
    match e
    case Arrives(update) => Arrived(decode, s, update)
    case Responds(snapshot) => Responded(decode, s, snapshot)
    case Obtain => if s.hydrated && s.registered then s.(obtained := true) else s
    case Start =>
      if !s.obtained || s.disposed || s.ready then s
      else s.(ready := true, queued := [], scheduled := s.scheduled + s.queued)
    case Dispose => if s.obtained then s.(disposed := true, registered := false) else s
    case ClearQueues => if s.disposed then s.(cleared := true, queuedWire := [], queued := []) else s
    case Unregister => s.(registered := false)
    case RunNext =>
      if s.busy || s.scheduled == [] then s
      else s.(busy := true, handled := s.handled + [s.scheduled[0]], scheduled := s.scheduled[1..])
    case ListenerDone => s.(busy := false)
  }

  function Run(decode: Decoder, events: seq<Event>): State
    decreases |events|
  {
    if events == [] then SUBSCRIBED else Step(decode, Run(decode, events[..|events| - 1]), events[|events| - 1])
  }

  // ----- What arrives is what is delivered ------------------------------------------------------

  /** What the subscriber is to see of the updates that arrived. */
  function Meant(decode: Decoder, s: State): Decoding {
    DecodeRun(decode, [s.snapshot], s.arrived)
  }

  /** Delivered, then queued, then queued undecoded is what arrived; a refusal ends the registration. */
  ghost predicate Faithful(decode: Decoder, s: State) {
    && (!s.hydrated ==>
          && s.handled == s.scheduled == s.queued == [] && !s.obtained && !s.ready && !s.disposed
          && s.queuedWire == s.arrived && (s.responded ==> !s.registered) && (!s.responded ==> s.fed == []))
    && (s.hydrated ==>
          && s.responded && s.queuedWire == [] && s.fed == Meant(decode, s).fed
          && (s.registered ==> Meant(decode, s).ok)
          && s.handled + s.scheduled + s.queued <= Meant(decode, s).updates
          && (!s.cleared ==> s.handled + s.scheduled + s.queued == Meant(decode, s).updates))
    && (s.ready ==> s.queued == [])
    && (s.cleared ==> s.disposed)
    && (s.disposed ==> s.obtained && !s.registered)
    && (s.obtained ==> s.hydrated)
  }

  lemma DecodeMore(decode: Decoder, fed: seq<Wire>, wires: seq<Wire>, w: Wire)
    ensures DecodeRun(decode, fed, wires + [w]) ==
      var before := DecodeRun(decode, fed, wires);
      if !before.ok then before
      else
        match decode(before.fed + [w])
        case None => Decoding(before.updates, before.fed + [w], false)
        case Some(u) => Decoding(before.updates + [u], before.fed + [w], true)
  {
    assert (wires + [w])[..|wires|] == wires;
  }

  lemma ArrivalKeeps(decode: Decoder, s: State, update: Wire)
    requires Faithful(decode, s)
    ensures Faithful(decode, Arrived(decode, s, update))
  {
    if s.registered && s.hydrated {
      DecodeMore(decode, [s.snapshot], s.arrived, update);
      var s' := Arrived(decode, s, update);
      match decode(s.fed + [update]) {
        case None =>
        case Some(u) =>
          assert s'.handled + s'.scheduled + s'.queued == s.handled + s.scheduled + s.queued + [u];
      }
    }
  }

  lemma StartKeeps(decode: Decoder, s: State)
    requires Faithful(decode, s)
    ensures Faithful(decode, Step(decode, s, Start))
  {
    assert s.handled + (s.scheduled + s.queued) + [] == s.handled + s.scheduled + s.queued;
  }

  lemma RunNextKeeps(decode: Decoder, s: State)
    requires Faithful(decode, s)
    ensures Faithful(decode, Step(decode, s, RunNext))
  {
    if !s.busy && s.scheduled != [] {
      assert [s.scheduled[0]] + s.scheduled[1..] == s.scheduled;
      assert s.handled + [s.scheduled[0]] + s.scheduled[1..] == s.handled + s.scheduled;
    }
  }

  lemma StepKeeps(decode: Decoder, s: State, e: Event)
    requires Faithful(decode, s)
    ensures Faithful(decode, Step(decode, s, e))
  {
    match e {
      case Arrives(update) => ArrivalKeeps(decode, s, update);
      case Start => StartKeeps(decode, s);
      case RunNext => RunNextKeeps(decode, s);
      case ClearQueues => assert s.handled + s.scheduled + [] <= s.handled + s.scheduled + s.queued;
      case _ =>
    }
  }

  /** Whichever of hydration, start, arrivals, disposal and disconnection comes first. */
  lemma {:induction false} RunKeeps(decode: Decoder, events: seq<Event>)
    ensures Faithful(decode, Run(decode, events))
    decreases |events|
  {
    if events != [] {
      RunKeeps(decode, events[..|events| - 1]);
      StepKeeps(decode, Run(decode, events[..|events| - 1]), events[|events| - 1]);
    }
  }

  /**
   What the decoding of a run means: the n-th update is the n-th message read after the snapshot and all messages
   before it, each read exactly once, and the run stops exactly at the first message that is refused.
   */
  lemma {:induction false} DecodeRunMeans(decode: Decoder, fed: seq<Wire>, wires: seq<Wire>)
    ensures var run := DecodeRun(decode, fed, wires);
      && |run.updates| <= |wires|
      && (forall n :: 0 <= n < |run.updates| ==> decode(fed + wires[..n + 1]) == Some(run.updates[n]))
      && (run.ok <==> |run.updates| == |wires|)
      && (run.ok ==> run.fed == fed + wires)
      && (!run.ok ==> run.fed == fed + wires[..|run.updates| + 1] && decode(run.fed) == None)
    decreases |wires|
  {
    var run := DecodeRun(decode, fed, wires);
    if wires != [] {
      var init, w := wires[..|wires| - 1], wires[|wires| - 1];
      var before := DecodeRun(decode, fed, init);
      DecodeRunMeans(decode, fed, init);
      assert forall n :: 0 <= n <= |init| ==> init[..n] == wires[..n];
      assert wires[..|wires|] == wires && fed + init + [w] == fed + wires by { assert init + [w] == wires; }
    }
  }

  /**
   What the listener has been given is always a prefix of what arrived, decoded in order after the snapshot; and once
   the subscriber has started and the chain has run dry, it is everything that arrived up to a refused message.
   */
  lemma DeliveredFaithfully(decode: Decoder, events: seq<Event>)
    ensures var s := Run(decode, events);
      && |s.handled| <= |s.arrived|
      && (s.handled != [] ==> s.hydrated && s.fed != [] && s.fed[0] == s.snapshot)
      && (forall n :: 0 <= n < |s.handled| ==> decode([s.snapshot] + s.arrived[..n + 1]) == Some(s.handled[n]))
      && (s.ready && !s.cleared && s.scheduled == [] ==>
            |s.handled| == |s.arrived| || decode([s.snapshot] + s.arrived[..|s.handled| + 1]) == None)
  {
    RunKeeps(decode, events);
    var s := Run(decode, events);
    if s.hydrated {
      DecodeRunMeans(decode, [s.snapshot], s.arrived);
      var updates := Meant(decode, s).updates;
      assert s.handled <= s.handled + s.scheduled + s.queued <= updates;
      assert forall n :: 0 <= n < |s.handled| ==> s.handled[n] == updates[n];
      if s.ready && !s.cleared && s.scheduled == [] {
        assert s.handled + s.scheduled + s.queued == s.handled;
      }
    }
  }

  /** What was handled is what arrived, decoded in order after the snapshot. */
  ghost predicate Ordered(decode: Decoder, snapshot: Wire, arrived: seq<Wire>, handled: seq<Update>) {
    && |handled| <= |arrived|
    && forall n :: 0 <= n < |handled| ==> decode([snapshot] + arrived[..n + 1]) == Some(handled[n])
  }

  lemma RunMore(decode: Decoder, events: seq<Event>, e: Event)
    ensures Run(decode, events + [e]) == Step(decode, Run(decode, events), e)
    ensures var s := Run(decode, events + [e]); Ordered(decode, s.snapshot, s.arrived, s.handled)
  {
    assert (events + [e])[..|events|] == events;
    DeliveredFaithfully(decode, events + [e]);
  }

  // ----- What arrived, and what ends a registration ---------------------------------------------

  /** Every update that came, in order. */
  function UpdatesOf(events: seq<Event>): seq<Wire> {
    if events == [] then []
    else
      UpdatesOf(events[..|events| - 1])
      + if events[|events| - 1].Arrives? then [events[|events| - 1].update] else []
  }

  /** The last message that was read, the snapshot or an update after it, was refused. */
  predicate Refused(decode: Decoder, fed: seq<Wire>) {
    fed != [] && decode(fed).None?
  }

  ghost predicate Registration(decode: Decoder, s: State, events: seq<Event>) {
    && s.arrived <= UpdatesOf(events) && (s.registered ==> s.arrived == UpdatesOf(events))
    && (s.registered <==> Unregister !in events && !s.disposed && !Refused(decode, s.fed))
  }

  lemma UpdatesMore(events: seq<Event>, e: Event)
    ensures UpdatesOf(events + [e]) == UpdatesOf(events) + if e.Arrives? then [e.update] else []
    ensures Unregister in events + [e] <==> Unregister in events || e == Unregister
  {
    assert (events + [e])[..|events|] == events;
  }

  /** The snapshot and the updates that waited for it are read up to the first that is refused. */
  lemma WaitingRead(decode: Decoder, snapshot: Wire, waiting: seq<Wire>)
    requires decode([snapshot]).Some?
    ensures var run := DecodeRun(decode, [snapshot], waiting);
      run.ok <==> !Refused(decode, run.fed)
  {
    DecodeRunMeans(decode, [snapshot], waiting);
    var run := DecodeRun(decode, [snapshot], waiting);
    if run.ok && waiting != [] {
      assert waiting[..|waiting|] == waiting;
      assert decode([snapshot] + waiting[..|waiting| - 1 + 1]) == Some(run.updates[|waiting| - 1]);
    } else if run.ok {
      assert [snapshot] + waiting == [snapshot];
    }
  }

  lemma RespondedRegistration(decode: Decoder, s: State, events: seq<Event>, snapshot: Wire)
    requires Faithful(decode, s) && Registration(decode, s, events) && !s.responded
    ensures var s' := Responded(decode, s, snapshot);
      && s'.arrived == s.arrived && s'.disposed == s.disposed
      && (s'.registered <==> s.registered && !Refused(decode, s'.fed))
  {
    if decode([snapshot]).Some? {
      WaitingRead(decode, snapshot, s.queuedWire);
    }
  }

  lemma StepRegistration(decode: Decoder, s: State, events: seq<Event>, e: Event)
    requires Faithful(decode, s) && Registration(decode, s, events)
    ensures Registration(decode, Step(decode, s, e), events + [e])
  {
    UpdatesMore(events, e);
    match e {
      case Arrives(update) => ArrivedRegistration(decode, s, update);
      case Responds(snapshot) =>
        if !s.responded {
          RespondedRegistration(decode, s, events, snapshot);
        }
      case _ => QuietRegistration(decode, s, e);
    }
  }

  lemma ArrivedRegistration(decode: Decoder, s: State, update: Wire)
    requires s.registered ==> !Refused(decode, s.fed)
    ensures var s' := Arrived(decode, s, update);
      && s'.disposed == s.disposed && s'.arrived == s.arrived + (if s.registered then [update] else [])
      && (if s.registered then s'.registered <==> !Refused(decode, s'.fed)
          else s'.fed == s.fed && !s'.registered)
  {
    if s.registered && s.hydrated {
      match decode(s.fed + [update]) {
        case None =>
        case Some(u) => assert s.ready || !s.ready;
      }
    }
  }

  /** Nothing is read, and the registration stays as it is. */
  predicate ReadsNothing(s: State, s': State) {
    s'.fed == s.fed && s'.arrived == s.arrived && s'.disposed == s.disposed && s'.registered == s.registered
  }

  /** Nothing else reads a message; only disposal and the end of the connection end the registration. */
  lemma QuietRegistration(decode: Decoder, s: State, e: Event)
    requires !e.Arrives? && !e.Responds?
    ensures var s' := Step(decode, s, e);
      if e.Unregister? then ReadsNothing(s.(registered := false), s')
      else if e.Dispose? && s.obtained then ReadsNothing(s.(registered := false, disposed := true), s')
      else ReadsNothing(s, s')
  {
    match e {
      case Start => StartReadsNothing(decode, s);
      case RunNext => NextReadsNothing(decode, s);
      case ClearQueues => ClearingReadsNothing(decode, s);
      case _ =>
    }
  }

  lemma ClearingReadsNothing(decode: Decoder, s: State)
    ensures ReadsNothing(s, Step(decode, s, ClearQueues))
  {
    if s.disposed {
      assert Step(decode, s, ClearQueues) == s.(cleared := true, queuedWire := [], queued := []);
    }
  }

  lemma StartReadsNothing(decode: Decoder, s: State)
    ensures ReadsNothing(s, Step(decode, s, Start))
  {
    if s.obtained && !s.disposed && !s.ready {
      assert Step(decode, s, Start) == s.(ready := true, queued := [], scheduled := s.scheduled + s.queued);
    }
  }

  lemma NextReadsNothing(decode: Decoder, s: State)
    ensures ReadsNothing(s, Step(decode, s, RunNext))
  {
    if !s.busy && s.scheduled != [] {
      assert Step(decode, s, RunNext)
          == s.(busy := true, handled := s.handled + [s.scheduled[0]], scheduled := s.scheduled[1..]);
    }
  }

  /**
   No update that comes while the subscription is registered is lost, and it stays registered until it is disposed of,
   the connection ends or something is refused.
   */
  lemma {:induction false} RegisteredMeans(decode: Decoder, events: seq<Event>)
    ensures Registration(decode, Run(decode, events), events)
    decreases |events|
  {
    if events != [] {
      var init := events[..|events| - 1];
      RegisteredMeans(decode, init);
      RunKeeps(decode, init);
      StepRegistration(decode, Run(decode, init), init, events[|events| - 1]);
      assert events == init + [events[|events| - 1]];
    }
  }

  function Settlings(events: seq<Event>): nat {
    if events == [] then 0
    else Settlings(events[..|events| - 1]) + if events[|events| - 1].ListenerDone? then 1 else 0
  }

  lemma ReadingDeliversNothing(decode: Decoder, s: State, wire: Wire)
    ensures Responded(decode, s, wire).handled == s.handled && Responded(decode, s, wire).busy == s.busy
  {
    if !s.responded && decode([wire]).Some? {
      var run := DecodeRun(decode, [wire], s.queuedWire);
      assert Responded(decode, s, wire)
          == ReadWaiting(s.(responded := true, snapshot := wire, fed := [wire]), run);
    }
  }

  lemma ArrivingDeliversNothing(decode: Decoder, s: State, wire: Wire)
    ensures Arrived(decode, s, wire).handled == s.handled && Arrived(decode, s, wire).busy == s.busy
  {
    if s.registered && s.hydrated {
      match decode(s.fed + [wire]) {
        case None =>
        case Some(u) => assert s.ready || !s.ready;
      }
    }
  }

  lemma DeliversAtMostOne(decode: Decoder, s: State, e: Event)
    ensures var s' := Step(decode, s, e);
      |s'.handled| + (if s.busy then 1 else 0)
      <= |s.handled| + (if s'.busy then 1 else 0) + if e.ListenerDone? then 1 else 0
  {
    match e {
      case Arrives(wire) => ArrivingDeliversNothing(decode, s, wire);
      case Responds(wire) => ReadingDeliversNothing(decode, s, wire);
      case _ =>
    }
  }

  /** Deliveries run one after another: the next one waits until the listener has settled. */
  lemma {:induction false} OneDeliveryAtATime(decode: Decoder, events: seq<Event>)
    ensures |Run(decode, events).handled| <= Settlings(events) + if Run(decode, events).busy then 1 else 0
    decreases |events|
  {
    if events != [] {
      var init := events[..|events| - 1];
      OneDeliveryAtATime(decode, init);
      DeliversAtMostOne(decode, Run(decode, init), events[|events| - 1]);
    }
  }

  /** The decoder never sees a message before the snapshot, nor any message twice. */
  lemma DecoderFedInOrder(decode: Decoder, events: seq<Event>)
    requires Run(decode, events).hydrated
    ensures var s := Run(decode, events); s.fed <= [s.snapshot] + s.arrived
  {
    RunKeeps(decode, events);
    var s := Run(decode, events);
    DecodeRunMeans(decode, [s.snapshot], s.arrived);
  }

  // ----- The class ------------------------------------------------------------------------------

  class ActiveServiceListener {
    const decode: Decoder
    var registered: bool
    var responded: bool
    var hydrated: bool
    var obtained: bool
    var ready: bool
    var disposed: bool
    var cleared: bool
    var snapshot: Wire
    var fed: seq<Wire>
    var queuedWireUpdates: seq<Wire>
    var queued: seq<Update>
    var scheduled: seq<Update>
    var handled: seq<Update>
    var busy: bool
    ghost var arrived: seq<Wire>

    /** Everything that has happened to the subscription. */
    ghost var history: seq<Event>

    ghost function View(): State
      reads this
    {
      State(registered, responded, hydrated, obtained, ready, disposed, cleared, snapshot, fed, queuedWireUpdates,
            queued, scheduled, handled, busy, arrived)
    }

    /** The fields are where the events so far lead, so what is proved of every run holds of the object. */
    ghost predicate Valid()
      reads this
    {
      View() == Run(decode, history)
    }

    /** What the listener was given is what arrived, decoded in order after the snapshot. */
    ghost predicate InOrder()
      reads this
    {
      Ordered(decode, snapshot, arrived, handled)
    }

    /** What every public method does: it is the step of one event, which goes on record. */
    twostate predicate Took(e: Event)
      reads this
    {
      Valid() && history == old(history) + [e] && View() == Step(decode, old(View()), e) && InOrder()
    }

    /** Puts an event on record whose step the fields have just taken. */
    ghost method Note(e: Event, before: State)
      requires before == Run(decode, history) && View() == Step(decode, before, e)
      modifies `history
      ensures Valid() && history == old(history) + [e] && InOrder()
    {
      RunMore(decode, history, e);
      history := history + [e];
    }

    constructor (decode: Decoder)
      ensures Valid() && history == [] && View() == SUBSCRIBED && this.decode == decode
    {
      history := [];
      this.decode := decode;
      registered, responded, hydrated, obtained := true, false, false, false;
      ready, disposed, cleared := false, false, false;
      snapshot, fed, queuedWireUpdates, queued, scheduled, handled, busy := "", [], [], [], [], [], false;
      arrived := [];
    }

    method Decode(wire: Wire) returns (update: Option<Update>)
      modifies `fed
      ensures fed == old(fed) + [wire] && update == decode(fed)
    {
      fed := fed + [wire];
      update := decode(fed);
    }

    method HandleUpdate(wire: Wire)
      requires Valid()
      modifies this
      ensures Took(Arrives(wire))
    {
      ghost var before := View();
      Receive(wire);
      Note(Arrives(wire), before);
    }

    method Receive(wire: Wire)
      modifies `arrived, `queuedWireUpdates, `fed, `registered, `scheduled, `queued
      ensures View() == Arrived(decode, old(View()), wire)
    {
      if !registered {
        return;
      }
      arrived := arrived + [wire];
      if hydrated {
        ReadArrival(wire);
      } else {
        queuedWireUpdates := queuedWireUpdates + [wire];
      }
    }

    /** An update that arrives after the snapshot is decoded at once; a refusal ends the registration. */
    method ReadArrival(wire: Wire)
      modifies `fed, `registered, `scheduled, `queued
      ensures fed == old(fed) + [wire]
      ensures registered == (old(registered) && decode(fed).Some?)
      ensures scheduled == old(scheduled) + if decode(fed).Some? && ready then [decode(fed).value] else []
      ensures queued == old(queued) + if decode(fed).Some? && !ready then [decode(fed).value] else []
    {
      var update := Decode(wire);
      match update {
        case None => registered := false;
        case Some(u) => HandOver(u);
      }
    }

    /** A decoded update goes to the chain, or waits for the start. */
    method HandOver(update: Update)
      modifies `scheduled, `queued
      ensures scheduled == old(scheduled) + (if ready then [update] else [])
      ensures queued == old(queued) + (if ready then [] else [update])
    {
      if ready {
        Deliver(update);
      } else {
        queued := queued + [update];
      }
    }

    /** #deliverServiceUpdate: the delivery joins the end of the chain. */
    method Deliver(update: Update)
      modifies `scheduled
      ensures scheduled == old(scheduled) + [update]
    {
      scheduled := scheduled + [update];
    }

    /** The reader of the subscribe response. */
    method Hydrate(wire: Wire)
      requires Valid() && !responded
      modifies this
      ensures Took(Responds(wire))
    {
      ghost var before := View();
      RunKeeps(decode, history);
      ReadResponse(wire);
      Note(Responds(wire), before);
    }

    method ReadResponse(wire: Wire)
      requires !responded && fed == []
      modifies `responded, `snapshot, `hydrated, `queuedWireUpdates, `fed, `queued, `registered
      ensures View() == Responded(decode, old(View()), wire)
    {
      responded := true;
      snapshot := wire;
      var decoded := Decode(wire);
      assert fed == [wire];
      if decoded.None? {
        registered := false;
        return;
      }
      ReadWaitingUpdates();
    }

    method ReadWaitingUpdates()
      modifies `hydrated, `queuedWireUpdates, `fed, `queued, `registered
      ensures View() == ReadWaiting(old(View()), DecodeRun(decode, old(fed), old(queuedWireUpdates)))
    {
      hydrated := true;
      var waiting := queuedWireUpdates;
      queuedWireUpdates := [];
      var ok := DecodeWaiting(waiting);
      if !ok {
        registered := false;
      }
    }

    method DecodeWaiting(waiting: seq<Wire>) returns (ok: bool)
      modifies `fed, `queued
      ensures var run := DecodeRun(decode, old(fed), waiting);
        ok == run.ok && fed == run.fed && queued == old(queued) + run.updates
    {
      for i := 0 to |waiting|
        invariant var run := DecodeRun(decode, old(fed), waiting[..i]);
          run.ok && fed == run.fed && queued == old(queued) + run.updates
      {
        DecodeMore(decode, old(fed), waiting[..i], waiting[i]);
        assert waiting[..i] + [waiting[i]] == waiting[..i + 1];
        var update := Decode(waiting[i]);
        if update.None? {
          RefusalIsFinal(decode, old(fed), waiting, i + 1);
          return false;
        }
        queued := queued + [update.value];
      }
      assert waiting[..|waiting|] == waiting;
      return true;
    }

    /** subscribe returns the subscription, or throws if it is not registered any more. */
    method HandOut() returns (handedOut: bool)
      requires Valid() && hydrated
      modifies `obtained, `history
      ensures Took(Obtain) && handedOut == registered && (handedOut ==> obtained)
      ensures !handedOut ==> obtained == old(obtained)
    {
      ghost var before := View();
      handedOut := registered;
      if registered {
        obtained := true;
      }
      Note(Obtain, before);
    }

    method StartDelivery()
      requires Valid() && obtained
      modifies this
      ensures Took(Start) && ready == (old(ready) || !disposed)
      ensures scheduled == old(scheduled) + if !disposed && !old(ready) then old(queued) else []
    {
      ghost var before := View();
      ScheduleWaiting();
      Note(Start, before);
    }

    method ScheduleWaiting()
      requires obtained
      modifies `ready, `queued, `scheduled
      ensures View() == Step(decode, old(View()), Start)
    {
      if disposed || ready {
        return;
      }
      ready := true;
      var waiting := queued;
      queued := [];
      for i := 0 to |waiting|
        modifies `scheduled
        invariant scheduled == old(scheduled) + waiting[..i]
      {
        Deliver(waiting[i]);
        assert waiting[..i] + [waiting[i]] == waiting[..i + 1];
      }
      assert waiting[..|waiting|] == waiting;
    }

    /** dispose, up to the wait for the server and the deliveries. */
    method DisposeSubscription()
      requires Valid() && obtained
      modifies `disposed, `registered, `history
      ensures Took(Dispose) && disposed && !registered
    {
      ghost var before := View();
      disposed := true;
      registered := false;
      Note(Dispose, before);
    }

    /** The connection ends, or the subscribe request fails. */
    method Drop()
      requires Valid()
      modifies `registered, `history
      ensures Took(Unregister) && !registered
    {
      ghost var before := View();
      registered := false;
      Note(Unregister, before);
    }

    /** The `finally` of dispose. */
    method ClearWaiting()
      requires Valid() && disposed
      modifies `cleared, `queuedWireUpdates, `queued, `history
      ensures Took(ClearQueues) && queued == [] && queuedWireUpdates == []
    {
      ghost var before := View();
      cleared := true;
      queuedWireUpdates := [];
      queued := [];
      Note(ClearQueues, before);
    }

    /** The delivery chain calls the listener with the next update once the one before has settled. */
    method RunNextDelivery()
      requires Valid() && !busy && scheduled != []
      modifies `busy, `handled, `scheduled, `history
      ensures Took(RunNext) && busy && handled == old(handled) + [old(scheduled)[0]]
      ensures scheduled == [] && ready && !cleared ==>
        |handled| == |arrived| || decode([snapshot] + arrived[..|handled| + 1]) == None
    {
      ghost var before := View();
      CallListener();
      Note(RunNext, before);
      DeliveredFaithfully(decode, history);
    }

    method CallListener()
      requires !busy && scheduled != []
      modifies `busy, `handled, `scheduled
      ensures View() == Step(decode, old(View()), RunNext)
    {
      busy := true;
      handled := handled + [scheduled[0]];
      scheduled := scheduled[1..];
    }

    /** The listener has settled. */
    method FinishDelivery()
      requires Valid()
      modifies `busy, `history
      ensures Took(ListenerDone) && !busy
    {
      ghost var before := View();
      busy := false;
      Note(ListenerDone, before);
    }
  }

  lemma {:induction false} RefusalIsFinal(decode: Decoder, fed: seq<Wire>, wires: seq<Wire>, n: nat)
    requires n <= |wires| && !DecodeRun(decode, fed, wires[..n]).ok
    ensures DecodeRun(decode, fed, wires) == DecodeRun(decode, fed, wires[..n])
    decreases |wires|
  {
    if n == |wires| {
      assert wires[..n] == wires;
    } else {
      assert wires[..|wires| - 1][..n] == wires[..n];
      RefusalIsFinal(decode, fed, wires[..|wires| - 1], n);
    }
  }
}
