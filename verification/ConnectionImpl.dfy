/**
 The class Connection (packages/client/src/connection.ts), piece by piece: each method changes the fields in place up
 to the next callback and is proved to be the step of the machine in Connections that the theorems there are about.
 */
module ConnectionClass {
  import opened Wrappers
  import opened Connections

  class Connection {
    var lifecycle: Life
    var sequence: nat

    // What the runtime keeps: promises not yet settled, code waiting for a callback to return, and what was observed.
    var opening: set<nat>
    var greeting: set<nat>
    var stack: seq<Frame>
    var log: seq<Observed>

    /** Everything that has happened to the connection. */
    ghost var history: seq<Event>

    ghost function View(): State
      reads this
    {
      State(lifecycle, sequence, opening, greeting, stack, log)
    }

    /** The fields are where the events so far lead, so what is proved of every run holds of the object. */
    ghost predicate Valid()
      reads this
    {
      View() == Run(history)
    }

    /**
     What every public method does: it is the step of one event, which goes on record; what it shows of any attempt is
     in order.
     */
    twostate predicate Took(e: Event)
      reads this
    {
      && Valid() && history == old(history) + [e] && View() == Step(old(View()), e)
      && old(log) <= log && forall k :: |old(log)| <= k < |log| ==> InOrder(log, k)
    }

    constructor ()
      ensures Valid() && history == [] && View() == START
    {
      lifecycle, sequence, opening, greeting, stack, log := Disconnected, 0, {}, {}, [], [];
      history := [];
    }

    /** Puts an event on record whose step the fields have just taken. */
    ghost method Note(e: Event, before: State)
      requires before == Run(history) && View() == Step(before, e)
      modifies `history
      ensures Valid() && history == old(history) + [e]
      ensures before.log <= log && forall k :: 0 <= k < |log| ==> InOrder(log, k)
    {
      RunMore(history, e);
      StepGrows(before, e);
      history := history + [e];
      forall k | 0 <= k < |log| ensures InOrder(log, k) {
        ShownInOrder(history, k);
      }
    }

    method Observe(o: Observed)
      modifies `log
      ensures log == old(log) + [o]
    {
      log := log + [o];
    }

    /** Calls a callback: what is left of the caller waits for it. */
    method Await(f: Frame)
      modifies `stack
      ensures stack == old(stack) + [f]
    {
      stack := stack + [f];
    }

    /** Returns whether the attempt was begun; otherwise the caller's promise is rejected at once. */
    method Connect() returns (begun: bool)
      requires Valid()
      modifies this
      ensures Took(Event.Connect)
      ensures begun == old(lifecycle).Disconnected?
      ensures begun ==> IsCurrent(lifecycle, old(sequence) + 1) && Notices(log, old(sequence) + 1) == [NoticeConnecting]
    {
      ghost var before := View();
      begun := Begin();
      Note(Event.Connect, before);
      if begun {
        NoticesWhileConnecting(history, sequence);
      }
    }

    /** connect up to its first callback. */
    method Begin() returns (begun: bool)
      modifies `lifecycle, `sequence, `log, `stack
      ensures View() == Step(old(View()), Event.Connect)
      ensures begun == old(lifecycle).Disconnected?
      ensures begun ==> sequence == old(sequence) + 1 && lifecycle == Connecting(sequence, false)
    {
      begun := lifecycle.Disconnected?;
      if begun {
        sequence := sequence + 1;
        lifecycle := Connecting(sequence, false);
        Observe(NotifyConnecting(sequence));
        Await(ConnectTail(sequence));
      }
    }

    /** The lifecycle ends first; then the handshake is rejected and the owner told. */
    method Fail(closing: Option<nat>)
      requires !lifecycle.Disconnected?
      modifies `lifecycle, `log, `stack
      ensures View() == Connections.Fail(old(View()), closing) && Ends(old(View()), View())
    {
      var ended := lifecycle;
      lifecycle := Disconnected;
      if ended.Connecting? || ended.handshakePending {
        Observe(Rejected(ended.id));
      }
      Observe(NotifyDisconnected(ended.id));
      Await(AfterFail(closing));
    }

    method FailAndClose()
      modifies `lifecycle, `log, `stack
      ensures View() == Connections.FailAndClose(old(View()))
      ensures !old(lifecycle).Disconnected? ==> Ends(old(View()), View())
    {
      if lifecycle.Disconnected? {
        return;
      }
      var transport := if lifecycle.Connected? || lifecycle.transport then Some(lifecycle.id) else None;
      Fail(transport);
    }

    method Disconnect()
      requires Valid()
      modifies this
      ensures Took(Event.Disconnect)
      ensures lifecycle.Disconnected? && (!old(lifecycle).Disconnected? ==> Ends(old(View()), View()))
    {
      ghost var before := View();
      FailAndClose();
      Note(Event.Disconnect, before);
    }

    /** Returns whether a frame went to the transport; otherwise the caller gets an error. */
    method Send() returns (sent: bool)
      requires Valid()
      modifies this
      ensures Took(Event.Send)
      ensures sent == old(lifecycle).Connected? && lifecycle == old(lifecycle)
      ensures log == old(log) + if sent then [SentFrame(lifecycle.id)] else []
    {
      ghost var before := View();
      sent := lifecycle.Connected?;
      if sent {
        Observe(SentFrame(lifecycle.id));
        Await(AfterSend(lifecycle.id));
      }
      Note(Event.Send, before);
    }

    method HandleMessage(source: nat, message: Message)
      requires !lifecycle.Disconnected?
      modifies `lifecycle, `log, `stack
      ensures View() == Connections.HandleMessage(old(View()), source, message)
      ensures if old(lifecycle).Connecting? && old(lifecycle).transport && message == Hello(true) then
                lifecycle == Connected(old(lifecycle).id, true) && log == old(log) + [HelloSeen(old(lifecycle).id)]
              else if old(lifecycle).Connected? && message.Other? then
                lifecycle == old(lifecycle) && log == old(log) + [Delivered(lifecycle.id, source, message.payload)]
              else Ends(old(View()), View())
    {
      match lifecycle
      case Connecting(id, transport) =>
        if message.HelloError? || !message.Hello? || !message.matches || !transport {
          FailAndClose();
        } else {
          lifecycle := Connected(id, true);
          Observe(HelloSeen(id));
          Await(AfterHello(id));
        }
      case Connected(id, _) =>
        match message {
          case Other(payload) => Observe(Delivered(id, source, payload));
          case _ => FailAndClose();
        }
    }

    method RunRest(source: nat, messages: seq<Message>)
      modifies `lifecycle, `log, `stack
      ensures View() == Connections.RunRest(old(View()), source, messages)
    {
      if |messages| == 0 || lifecycle.Disconnected? {
        return;
      }
      Await(Rest(source, messages[1..]));
      HandleMessage(source, messages[0]);
    }

    method HandleData(id: nat, decoded: Option<seq<Message>>)
      requires Valid()
      modifies this
      ensures Took(Data(id, decoded)) && ChunkDecides(old(View()), id, decoded, View())
    {
      ghost var before := View();
      FirstMessageDecides(before, id, decoded);
      TakeChunk(id, decoded);
      Note(Data(id, decoded), before);
    }

    method TakeChunk(id: nat, decoded: Option<seq<Message>>)
      modifies this
      ensures history == old(history) && View() == Step(old(View()), Data(id, decoded))
    {
      if lifecycle.Disconnected? || lifecycle.id != id {
        return;
      }
      if lifecycle.Connecting? && !lifecycle.transport {
        FailAndClose();
        return;
      }
      match decoded {
        case None => FailAndClose();
        case Some(messages) => RunRest(id, messages);
      }
    }

    method HandleClose(id: nat)
      requires Valid()
      modifies this
      ensures Took(PeerClose(id))
      ensures if old(lifecycle).Disconnected? || old(lifecycle).id != id then View() == old(View())
              else Ends(old(View()).(log := old(log) + [TransportGone(id)]), View())
    {
      ghost var before := View();
      if !lifecycle.Disconnected? && lifecycle.id == id {
        Observe(TransportGone(id));
        Fail(None);
      }
      Note(PeerClose(id), before);
    }

    method HandleError(id: nat)
      requires Valid()
      modifies this
      ensures Took(PeerError(id))
      ensures if old(lifecycle).Disconnected? || old(lifecycle).id != id then View() == old(View())
              else Ends(old(View()), View())
    {
      ghost var before := View();
      if !lifecycle.Disconnected? && lifecycle.id == id {
        FailAndClose();
      }
      Note(PeerError(id), before);
    }

    /**
     A callback returned or threw; the code that waited for it goes on. Once no code is left, the factory was called for
     every attempt and no transport of an ended attempt is still open; and what is left of an old chunk ends a new
     attempt, unless nothing is left of it.
     */
    method Resume(threw: bool)
      requires Valid() && stack != []
      modifies this
      ensures Took(Return(threw))
      ensures stack == [] ==> Settled(View())
      ensures var f := old(stack)[|old(stack)| - 1];
        f.Rest? && !old(lifecycle).Disconnected? && old(lifecycle).id != f.source ==>
          (lifecycle == old(lifecycle) <==> f.messages == [])
      ensures Resumes(old(stack)[|old(stack)| - 1], threw, old(View()), View())
    {
      ghost var before, f := View(), stack[|stack| - 1];
      GoOn(threw);
      if f.Rest? && !before.life.Disconnected? && before.life.id != f.source {
        NewAttemptSurvivesOnlyEmptyRest(history, threw, f.source, f.messages);
      }
      Note(Return(threw), before);
      if stack == [] {
        AtRest(history);
      }
    }

    /**
     What waits for a callback does once it is back: connect calls the factory; a handshake that was told of goes on
     only if its attempt is still the current one, and fails if its callback threw; so does a frame that was refused.
     */
    static predicate Resumes(f: Frame, threw: bool, s: State, s': State) {
      match f
      case ConnectTail(id) => s'.life == s.life && s'.log == s.log + [FactoryCalled(id)] && id in s'.opening
      case AfterHello(id) =>
        if s.life != Connected(id, true) then s'.life == s.life && s'.log == s.log
        else if threw then Ends(s, s')
        else s'.life == s.life && s'.log == s.log + [NotifyConnected(id)]
      case AfterConnected(id) =>
        if s.life != Connected(id, true) then s'.life == s.life && s'.log == s.log
        else s'.life == Connected(id, false) && s'.log == s.log + [Resolved(id)]
      case Rest(_, messages) => messages == [] || s.life.Disconnected? ==> s'.life == s.life && s'.log == s.log
      case AfterFail(closing) =>
        s'.life == s.life && s'.log == s.log + if closing.Some? then [TransportClosed(closing.value)] else []
      case AfterSend(_) =>
        if threw && !s.life.Disconnected? then Ends(s, s') else s'.life == s.life && s'.log == s.log
    }

    method GoOn(threw: bool)
      requires stack != []
      modifies this
      ensures history == old(history) && View() == Step(old(View()), Return(threw))
      ensures Resumes(old(stack)[|old(stack)| - 1], threw, old(View()), View())
    {
      var f := stack[|stack| - 1];
      stack := stack[..|stack| - 1];
      match f {
        case ConnectTail(id) =>
          opening := opening + {id};
          Observe(FactoryCalled(id));
        case AfterHello(id) =>
          if lifecycle == Connected(id, true) {
            if threw {
              FailAndClose();
            } else {
              Observe(NotifyConnected(id));
              Await(AfterConnected(id));
            }
          }
        case AfterConnected(id) =>
          if lifecycle == Connected(id, true) {
            lifecycle := Connected(id, false);
            Observe(Resolved(id));
          }
        case Rest(source, messages) => RunRest(source, messages);
        case AfterFail(closing) =>
          if closing.Some? {
            Observe(TransportClosed(closing.value));
          }
        case AfterSend(_) =>
          if threw {
            FailAndClose();
          }
      }
    }

    /** The factory delivered a transport: to the attempt that asked for it, or to be closed. */
    method TransportOpened(id: nat)
      requires Valid() && stack == [] && id in opening
      modifies this
      ensures Took(TransportArrives(id)) && opening == old(opening) - {id}
      ensures if old(lifecycle).Connecting? && old(lifecycle).id == id then
                lifecycle == Connecting(id, true) && log == old(log) + [TransportArrived(id), SentHello(id)]
              else lifecycle == old(lifecycle) && log == old(log) + [TransportArrived(id), TransportClosed(id)]
    {
      ghost var before := View();
      opening := opening - {id};
      Observe(TransportArrived(id));
      assert log == old(log) + [TransportArrived(id)];
      if !lifecycle.Connecting? || lifecycle.id != id {
        Observe(TransportClosed(id));
        assert log == old(log) + [TransportArrived(id), TransportClosed(id)];
      } else {
        lifecycle := Connecting(id, true);
        greeting := greeting + {id};
        Observe(SentHello(id));
        assert log == old(log) + [TransportArrived(id), SentHello(id)];
      }
      Note(TransportArrives(id), before);
    }

    method TransportFailed(id: nat)
      requires Valid() && id in opening
      modifies this
      ensures Took(FactoryFails(id)) && opening == old(opening) - {id}
      ensures if !old(lifecycle).Disconnected? && old(lifecycle).id == id then Ends(old(View()), View())
              else lifecycle == old(lifecycle) && log == old(log)
    {
      ghost var before := View();
      opening := opening - {id};
      if !lifecycle.Disconnected? && lifecycle.id == id {
        Fail(None);
      }
      Note(FactoryFails(id), before);
    }

    method HelloFailed(id: nat)
      requires Valid() && stack == [] && id in greeting
      modifies this
      ensures Took(HelloRejects(id))
      ensures if !old(lifecycle).Disconnected? && old(lifecycle).id == id then Ends(old(View()), View())
              else lifecycle == old(lifecycle) && log == old(log)
    {
      ghost var before := View();
      greeting := greeting - {id};
      if !lifecycle.Disconnected? && lifecycle.id == id {
        FailAndClose();
      }
      Note(HelloRejects(id), before);
    }

    /** A frame given to the transport of attempt `id` was refused later. */
    method SendFailed(id: nat)
      requires Valid() && stack == []
      modifies this
      ensures Took(SendRejects(id))
      ensures if old(lifecycle) == Connecting(id, true) || (old(lifecycle).Connected? && old(lifecycle).id == id)
              then Ends(old(View()), View()) else View() == old(View())
    {
      ghost var before := View();
      if !lifecycle.Disconnected? && lifecycle.id == id && (lifecycle.Connected? || lifecycle.transport) {
        FailAndClose();
      }
      Note(SendRejects(id), before);
    }
  }
}
