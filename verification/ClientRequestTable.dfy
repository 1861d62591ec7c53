/**
 The fields and methods of Client that hold the pending requests (packages/client/src/client.ts), each proved to be
 its step in ClientRequests. A request is two methods because transport.send may call back in between.
 */
module ClientRequestTable {
  import opened Wrappers
  import opened ClientRequests

  class Client {
    var connected: bool
    var disposed: bool
    var pendingRequests: set<nat>

    // The closures of the requests made so far; their number is the request sequence.
    var requests: seq<Request>
    var log: seq<Observed>

    /** Everything that has happened to the client. */
    ghost var history: seq<Event>

    ghost function View(): State
      reads this
    {
      State(connected, disposed, requests, pendingRequests, log)
    }

    /** The fields are where the events so far lead, so what is proved of every run holds of the object. */
    ghost predicate Valid()
      reads this
    {
      View() == Run(history) && forall id <- pendingRequests :: id < |requests|
    }

    /** What every public method does: it is the step of one event, which goes on record, and keeps the promises. */
    twostate predicate Took(e: Event)
      reads this
    {
      && Valid() && history == old(history) + [e] && View() == Step(old(View()), e)
      && KeepsPromises(old(requests), View()) && AllSettledBy(old(View()), e, requests)
    }

    constructor ()
      ensures Valid() && history == [] && View() == START
    {
      connected, disposed, pendingRequests, requests, log := false, false, {}, [], [];
      history := [];
    }

    /** Puts an event on record whose step the fields have just taken. */
    ghost method Note(e: Event, before: State)
      requires before == Run(history) && View() == Step(before, e)
      modifies `history
      ensures Valid() && history == old(history) + [e] && KeepsPromises(before.requests, View())
      ensures AllSettledBy(before, e, requests)
    {
      EventSettles(history, e);
      RunMore(history, e);
      NextKeepsPromises(history, e);
      history := history + [e];
      RunKeeps(history);
    }

    /** A connection is up. */
    method HandleConnected()
      requires Valid()
      modifies `connected, `history
      ensures Took(ConnectionUp) && connected
    {
      ghost var before := View();
      connected := true;
      Note(ConnectionUp, before);
    }

    /** The connection tells of its end: every pending request is rejected. */
    method HandleDisconnected()
      requires Valid()
      modifies this
      ensures Took(ConnectionLoss) && !connected && (old(connected) ==> Drained())
    {
      ghost var before := View();
      FailConnection();
      Note(ConnectionLoss, before);
      if before.connected {
        NothingOwed();
      }
    }

    /** No request waits for an answer any more: all are settled, and the server owes nothing. */
    ghost predicate Drained()
      reads this
    {
      && pendingRequests == {} && (forall id :: 0 <= id < |requests| ==> requests[id].outcome.Some?)
      && forall id: nat :: !Owed(log, id)
    }

    method Observe(o: Observed)
      modifies `log
      ensures log == old(log) + [o]
    {
      log := log + [o];
    }

    /** #rejectPendingRequests: the table is emptied first, then each request is cleaned up and rejected. */
    method RejectPendingRequests()
      requires forall id <- pendingRequests :: id < |requests|
      modifies `pendingRequests, `requests
      ensures pendingRequests == {} && requests == AfterDrop(old(requests), old(pendingRequests))
    {
      var left := pendingRequests;
      pendingRequests := {};
      while left != {}
        invariant pendingRequests == {} && left <= old(pendingRequests) && |requests| == |old(requests)|
        invariant forall i :: 0 <= i < |requests| ==>
          requests[i] == if i in old(pendingRequests) - left then AfterDrop(old(requests), old(pendingRequests))[i]
                         else old(requests)[i]
        decreases |left|
      {
        var id :| id in left;
        requests := requests[id := requests[id].(listening := false).Settle(ConnectionLost)];
        left := left - {id};
      }
    }

    /** Connection.fail, and what the client does when it is told of the end. */
    method FailConnection()
      requires forall id <- pendingRequests :: id < |requests|
      modifies `connected, `pendingRequests, `requests, `log
      ensures View() == ClientRequests.FailConnection(old(View()))
    {
      if connected {
        connected := false;
        Observe(Dropped);
        RejectPendingRequests();
      }
    }

    method SendCancel(id: nat)
      requires id < |requests|
      modifies `log
      ensures View() == ClientRequests.SendCancel(old(View()), id)
    {
      if !requests[id].sent || !connected {
        return;
      }
      Observe(CancelSent(id));
    }

    /** #takePendingRequest. */
    method TakePendingRequest(id: nat) returns (found: bool)
      requires id in pendingRequests ==> id < |requests|
      modifies `pendingRequests, `requests
      ensures found <==> id in old(pendingRequests)
      ensures pendingRequests == old(pendingRequests) - {id}
      ensures requests == if found then old(requests)[id := old(requests)[id].(listening := false)] else old(requests)
    {
      found := id in pendingRequests;
      if found {
        pendingRequests := pendingRequests - {id};
        requests := requests[id := requests[id].(listening := false)];
      } else {
        assert pendingRequests - {id} == pendingRequests;
      }
    }

    /**
     #request up to transport.send; returns the id, or None when the caller is rejected without one. A request whose
     frame went out is owed an answer.
     */
    method BeginRequest(signal: Option<bool>, encodes: bool) returns (id: Option<nat>)
      requires Valid()
      modifies this
      ensures Took(Begin(signal, encodes))
      ensures id == if |requests| > |old(requests)| then Some(|old(requests)|) else None
      ensures id.Some? && encodes ==> Owed(log, id.value)
      ensures id.None? <==> old(disposed) || !old(connected) || signal == Some(true)
      ensures id.Some? ==> Entered(signal, encodes)
    {
      ghost var before := View();
      id := Enter(signal, encodes);
      Note(Begin(signal, encodes), before);
    }

    /** A new request: sent and waiting, or, if it cannot be encoded, rejected without a frame. */
    twostate predicate Entered(signal: Option<bool>, encodes: bool)
      reads `requests, `pendingRequests, `log
    {
      var k := |old(requests)|;
      if encodes then
        && requests == old(requests) + [Request(true, false, false, signal.Some?, None)]
        && pendingRequests == old(pendingRequests) + {k} && log == old(log) + [FrameSent(k)]
      else
        && requests == old(requests) + [Request(false, false, false, false, Some(Unencodable))]
        && pendingRequests == old(pendingRequests) && log == old(log)
    }

    method Enter(signal: Option<bool>, encodes: bool) returns (id: Option<nat>)
      requires forall k <- pendingRequests :: k < |requests|
      modifies `requests, `pendingRequests, `log
      ensures View() == Step(old(View()), Begin(signal, encodes))
      ensures id == if |requests| > |old(requests)| then Some(|old(requests)|) else None
      ensures id.Some? && encodes ==> Owed(log, id.value)
      ensures id.None? <==> old(disposed) || !old(connected) || signal == Some(true)
      ensures id.Some? ==> Entered(signal, encodes)
    {
      if disposed || !connected || signal == Some(true) {
        return None;
      }
      var k := |requests|;
      requests := requests + [Request(false, false, false, signal.Some?, None)];
      pendingRequests := pendingRequests + {k};
      if !encodes {
        var _ := TakePendingRequest(k);
        requests := requests[k := requests[k].Settle(Unencodable)];
        assert requests == old(requests) + [Request(false, false, false, false, Some(Unencodable))];
        assert pendingRequests == old(pendingRequests);
      } else {
        requests := requests[k := requests[k].(sending := true)];
        Observe(FrameSent(k));
      }
      return Some(k);
    }

    /** #request after transport.send returned; an abort meanwhile is made up for by one cancel. */
    method ContinueRequest(id: nat)
      requires Valid() && id < |requests| && requests[id].sending
      modifies this
      ensures Took(SendReturns(id))
      ensures requests[id].aborted && Owed(log, id) ==> Cancels(log, id) == 1
      ensures requests == old(requests)[id := old(requests)[id].(sending := false, sent := true)]
      ensures log == old(log) + if old(requests)[id].aborted && connected then [CancelSent(id)] else []
    {
      ghost var before := View();
      GoOn(id);
      Note(SendReturns(id), before);
      AbortedIsCancelledOnce(history);
    }

    method GoOn(id: nat)
      requires id < |requests| && requests[id].sending
      modifies `requests, `log
      ensures View() == Step(old(View()), SendReturns(id))
      ensures requests == old(requests)[id := old(requests)[id].(sending := false, sent := true)]
      ensures log == old(log) + if old(requests)[id].aborted && connected then [CancelSent(id)] else []
    {
      requests := requests[id := requests[id].(sending := false, sent := true)];
      if requests[id].aborted {
        SendCancel(id);
      }
    }

    /** transport.send threw: the connection fails before the request goes on. */
    method SendFailed(id: nat)
      requires Valid() && id < |requests| && requests[id].sending
      modifies this
      ensures Took(SendThrows(id)) && requests[id].outcome.Some?
    {
      ghost var before := View();
      FailConnection();
      GoOn(id);
      Note(SendThrows(id), before);
      RunKeeps(history);
    }

    /** onAbort; the listener goes with its first call. The server is told at once if it has the request. */
    method OnAbort(id: nat)
      requires Valid() && id < |requests| && requests[id].listening
      modifies this
      ensures Took(Abort(id)) && requests[id].outcome.Some? && id in pendingRequests
      ensures requests[id].sent ==> Cancels(log, id) == 1
      ensures requests[id].outcome == Some(Aborted) && requests[id].aborted
    {
      ghost var before := View();
      RunKeeps(history);
      assert RequestOk(requests[id], id in pendingRequests, FrameSent(id) in log, Cancels(log, id));
      requests := requests[id := requests[id].(aborted := true, listening := false).Settle(Aborted)];
      SendCancel(id);
      Note(Abort(id), before);
      AbortedIsCancelledOnce(history);
      RunKeeps(history);
    }

    /**
     A response is a protocol violation exactly when it answers nothing that is owed; in particular, a late response to
     an aborted request is not.
     */
    method HandleResponse(id: nat, answer: Answer)
      requires Valid() && connected
      modifies this
      ensures Took(Response(id, answer))
      ensures log == old(log) + if !Owed(old(log), id) then [Violation(id), Dropped]
                                else if answer.UnreadableResult? then [Taken(id), Dropped] else [Taken(id)]
      ensures Owed(old(log), id) ==> id < |requests| && requests[id].outcome.Some? && id !in pendingRequests
      ensures Owed(old(log), id) && old(requests)[id].outcome.None? ==> Means(answer, requests[id].outcome.value)
    {
      ghost var before := View();
      Answer(id, answer);
      ViolationExactlyUnowed(history, id, answer);
      RunKeeps(history);
      RunMore(history, Response(id, answer));
      Note(Response(id, answer), before);
    }

    method Answer(id: nat, answer: Answer)
      requires connected && forall k <- pendingRequests :: k < |requests|
      modifies `connected, `requests, `pendingRequests, `log
      ensures View() == Step(old(View()), Response(id, answer))
    {
      if id !in pendingRequests {
        Observe(Violation(id));
        FailConnection();
        return;
      }
      var _ := TakePendingRequest(id);
      Observe(Taken(id));
      match answer {
        case ServerError => requests := requests[id := requests[id].Settle(ServerFailed)];
        case Result => requests := requests[id := requests[id].Settle(Resolved)];
        case UnreadableResult =>
          FailConnection();
          requests := requests[id := requests[id].Settle(Invalid)];
      }
    }

    method Dispose()
      requires Valid()
      modifies this
      ensures Took(Event.Dispose) && disposed && (!old(disposed) ==> Drained() && !connected)
    {
      ghost var before := View();
      if !disposed {
        Shut();
      }
      Note(Event.Dispose, before);
      if !before.disposed {
        NothingOwed();
      }
    }

    method Shut()
      requires Valid() && !disposed
      modifies `disposed, `connected, `requests, `pendingRequests, `log
      ensures View() == Step(old(View()), Event.Dispose) && pendingRequests == {}
    {
      disposed := true;
      RejectPendingRequests();
      connected := false;
      Observe(Dropped);
    }

    lemma NothingOwed()
      requires Valid() && pendingRequests == {}
      ensures Drained()
    {
      RunKeeps(history);
      forall id | 0 <= id < |requests| ensures requests[id].outcome.Some? {
        SettledExactlyWhenOver(history, id);
      }
    }
  }
}
