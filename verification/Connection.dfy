/**
 The connection lifecycle (packages/client/src/connection.ts) as a machine that any caller, transport or callback may
 re-enter at any point. The code runs in pieces: each piece ends where a callback is called, and the rest of the
 function waits as a `Frame` until that callback returns. `Step` is one piece; between two pieces anything may happen.
 */
module Connections {
  import opened Wrappers

  /** A server message as far as the lifecycle looks at it. `matches`: the hello names the expected server. */
  datatype Message = Hello(matches: bool) | HelloError | Other(payload: string)

  /** Attempts are numbered from 1; an attempt has at most one transport, so the number also names that. */
  datatype Life =
    | Disconnected
    | Connecting(id: nat, transport: bool)
    | Connected(id: nat, handshakePending: bool)

  datatype Observed =
    | NotifyConnecting(id: nat)
    | FactoryCalled(id: nat)
    | TransportArrived(id: nat)
    | SentHello(id: nat)
    | HelloSeen(id: nat)
    | NotifyConnected(id: nat)
    | Resolved(id: nat)
    | Rejected(id: nat)
    | Delivered(id: nat, source: nat, payload: string)
    | SentFrame(id: nat)
    | TransportGone(id: nat)
    | NotifyDisconnected(id: nat)
    | TransportClosed(id: nat)

  /** What is left to run once the callback in progress returns. */
  datatype Frame =
    | ConnectTail(id: nat)
    | AfterHello(id: nat)
    | AfterConnected(id: nat)
    | Rest(source: nat, messages: seq<Message>)
    | AfterFail(closing: Option<nat>)
    | AfterSend(id: nat)

  datatype State = State(life: Life, sequence: nat, opening: set<nat>, greeting: set<nat>, stack: seq<Frame>,
                         log: seq<Observed>)

  const START := State(Disconnected, 0, {}, {}, [], [])

  datatype Event =
    | Connect
    | Disconnect
    | Send
    | Data(id: nat, decoded: Option<seq<Message>>)
    | PeerClose(id: nat)
    | PeerError(id: nat)
    | Return(threw: bool)
    | TransportArrives(id: nat)
    | FactoryFails(id: nat)
    | HelloRejects(id: nat)
    | SendRejects(id: nat)

  // ----- The code -------------------------------------------------------------------------------

  predicate IsCurrent(life: Life, id: nat) {
    !life.Disconnected? && life.id == id
  }

  /** The current attempt has its transport. */
  predicate HasTransport(life: Life) {
    life.Connected? || (life.Connecting? && life.transport)
  }

  function Fail(s: State, closing: Option<nat>): State
    requires !s.life.Disconnected?
  {
    var id := s.life.id;
    var settled := s.life.Connected? && !s.life.handshakePending;
    s.(life := Disconnected,
       log := (if settled then s.log else s.log + [Rejected(id)]) + [NotifyDisconnected(id)],
       stack := s.stack + [AfterFail(closing)])
  }

  function FailAndClose(s: State): State {
    if s.life.Disconnected? then s else Fail(s, if HasTransport(s.life) then Some(s.life.id) else None)
  }

  /** One server message, of a chunk of attempt `source`. */
  function HandleMessage(s: State, source: nat, message: Message): State
    requires !s.life.Disconnected?
  {
    if s.life.Connecting? then
      if message != Hello(true) || !s.life.transport then FailAndClose(s)
      else
        s.(life := Connected(s.life.id, true), log := s.log + [HelloSeen(s.life.id)],
           stack := s.stack + [AfterHello(s.life.id)])
    else if !message.Other? then FailAndClose(s)
    else s.(log := s.log + [Delivered(s.life.id, source, message.payload)])
  }

  /** The loop over the messages of a chunk, up to its next callback. */
  function RunRest(s: State, source: nat, messages: seq<Message>): State {
    if messages == [] || s.life.Disconnected? then s
    else HandleMessage(s.(stack := s.stack + [Rest(source, messages[1..])]), source, messages[0])
  }

  function HandleData(s: State, id: nat, decoded: Option<seq<Message>>): State {
    if !IsCurrent(s.life, id) then s
    else if !HasTransport(s.life) || decoded.None? then FailAndClose(s)
    else RunRest(s, id, decoded.value)
  }

  function Popped(s: State): State
    requires s.stack != []
  {
    s.(stack := s.stack[..|s.stack| - 1])
  }

  /**
   A callback returned (or threw): the frame that waited for it runs. Only onHandshake and transport.send may throw.
   */
  function Returned(s: State, threw: bool): State {
    if s.stack == [] then s
    else
      var t := Popped(s);
      match s.stack[|s.stack| - 1]
      case ConnectTail(id) => t.(opening := t.opening + {id}, log := t.log + [FactoryCalled(id)])
      case AfterHello(id) =>
        if t.life != Connected(id, true) then t
        else if threw then FailAndClose(t)
        else t.(log := t.log + [NotifyConnected(id)], stack := t.stack + [AfterConnected(id)])
      case AfterConnected(id) =>
        if t.life != Connected(id, true) then t
        else t.(life := Connected(id, false), log := t.log + [Resolved(id)])
      case Rest(source, messages) => RunRest(t, source, messages)
      case AfterFail(closing) => if closing.Some? then t.(log := t.log + [TransportClosed(closing.value)]) else t
      case AfterSend(id) => if threw then FailAndClose(t) else t
  }

  function Arrived(s: State, id: nat): State {
    if s.life.Connecting? && s.life.id == id then
      s.(life := Connecting(id, true), opening := s.opening - {id}, greeting := s.greeting + {id},
         log := s.log + [TransportArrived(id), SentHello(id)])
    else
      s.(opening := s.opening - {id}, log := s.log + [TransportArrived(id), TransportClosed(id)])
  }

  /**
   One piece of code. What waits for a promise runs only when no other code does; but a factory may throw at once,
   inside any callback that connects.
   */
  function Step(s: State, e: Event): State {
    match e
    case Connect =>
      if !s.life.Disconnected? then s
      else
        var id := s.sequence + 1;
        s.(life := Connecting(id, false), sequence := id, log := s.log + [NotifyConnecting(id)],
           stack := s.stack + [ConnectTail(id)])
    case Disconnect => FailAndClose(s)
    case Send =>
      if !s.life.Connected? then s
      else s.(log := s.log + [SentFrame(s.life.id)], stack := s.stack + [AfterSend(s.life.id)])
    case Data(id, decoded) => HandleData(s, id, decoded)
    case PeerClose(id) =>
      if !IsCurrent(s.life, id) then s else Fail(s.(log := s.log + [TransportGone(id)]), None)
    case PeerError(id) => if IsCurrent(s.life, id) then FailAndClose(s) else s
    case Return(threw) => Returned(s, threw)
    case TransportArrives(id) => if s.stack == [] && id in s.opening then Arrived(s, id) else s
    case FactoryFails(id) =>
      if id in s.opening then
        var t := s.(opening := s.opening - {id});
        if IsCurrent(s.life, id) then Fail(t, None) else t
      else s
    case HelloRejects(id) =>
      if s.stack == [] && id in s.greeting then
        var t := s.(greeting := s.greeting - {id});
        if IsCurrent(s.life, id) then FailAndClose(t) else t
      else s
    case SendRejects(id) =>
      if s.stack == [] && IsCurrent(s.life, id) && HasTransport(s.life) then FailAndClose(s) else s
  }

  function Run(events: seq<Event>): State {
    if events == [] then START else Step(Run(events[..|events| - 1]), events[|events| - 1])
  }

  // ----- What one attempt may show --------------------------------------------------------------

  datatype Stage = Unborn | Live | Ended

  datatype Line = NotYet | Open | Done

  /** What the log says of one attempt so far. Bad: something out of order. */
  datatype Attempt =
    | Attempt(stage: Stage, greeted: bool, hello: bool, connected: bool, settled: bool, line: Line)
    | Bad

  const FRESH := Attempt(Unborn, false, false, false, false, NotYet)

  /**
   The protocol of one attempt: connecting (hello connected)? disconnected; the server's hello only after the client's;
   the handshake settles once, as resolved only after the connected notice and as rejected only before the end; messages
   only after the hello, and only its own; its transport carries frames while it lives and closes once, after the end.
   */
  function Track(a: Attempt, o: Observed): Attempt {
    if a.Bad? then Bad
    else
      var ok := match o
        case NotifyConnecting(_) => a == FRESH
        case FactoryCalled(_) => a.stage != Unborn && a.line == NotYet
        case TransportArrived(_) => a.stage != Unborn && a.line == NotYet
        case SentHello(_) => a.stage == Live && a.line == Open && !a.greeted
        case HelloSeen(_) => a.stage == Live && a.line == Open && a.greeted && !a.hello
        case NotifyConnected(_) => a.stage == Live && a.hello && !a.connected
        case Resolved(_) => a.stage == Live && a.connected && !a.settled
        case Rejected(_) => a.stage == Live && !a.settled
        case Delivered(id, source, _) => a.stage == Live && a.hello && source == id
        case SentFrame(_) => a.stage == Live && a.hello && a.line == Open
        case TransportGone(_) => a.stage == Live
        case NotifyDisconnected(_) => a.stage == Live && a.settled
        case TransportClosed(_) => a.stage == Ended && a.line == Open;
      if !ok then Bad
      else
        match o
        case NotifyConnecting(_) => a.(stage := Live)
        case TransportArrived(_) => a.(line := Open)
        case SentHello(_) => a.(greeted := true)
        case HelloSeen(_) => a.(hello := true)
        case NotifyConnected(_) => a.(connected := true)
        case Resolved(_) => a.(settled := true)
        case Rejected(_) => a.(settled := true)
        case TransportGone(_) => if a.line == Open then a.(line := Done) else a
        case NotifyDisconnected(_) => a.(stage := Ended)
        case TransportClosed(_) => a.(line := Done)
        case _ => a
  }

  function Of(log: seq<Observed>, id: nat): Attempt {
    if log == [] then FRESH
    else
      var before := Of(log[..|log| - 1], id);
      if log[|log| - 1].id == id then Track(before, log[|log| - 1]) else before
  }

  lemma OfSnoc(log: seq<Observed>, o: Observed, id: nat)
    ensures Of(log + [o], id) == if o.id == id then Track(Of(log, id), o) else Of(log, id)
  {
    assert (log + [o])[..|log|] == log;
  }

  // ----- The invariant --------------------------------------------------------------------------

  predicate LiveFits(life: Life, a: Attempt) {
    a.Attempt? && a.stage == Live &&
    match life
    case Disconnected => false
    case Connecting(_, transport) =>
      && !a.hello && !a.connected && !a.settled && a.line == (if transport then Open else NotYet)
      && a.greeted == transport
    case Connected(_, pending) =>
      a.greeted && a.hello && a.line == Open && a.settled == !pending && (a.connected || pending)
  }

  /** What the log shows of an attempt is what the state says of it. */
  predicate Fits(life: Life, sequence: nat, stack: seq<Frame>, id: nat, a: Attempt) {
    if id == 0 || sequence < id then a == FRESH
    else if IsCurrent(life, id) then LiveFits(life, a)
    else a.Attempt? && a.stage == Ended && a.settled && (a.line == Open ==> AfterFail(Some(id)) in stack)
  }

  ghost predicate AllFit(s: State) {
    forall id: nat :: Fits(s.life, s.sequence, s.stack, id, Of(s.log, id))
  }

  predicate LifeOk(life: Life, sequence: nat) {
    !life.Disconnected? ==> 1 <= life.id <= sequence
  }

  predicate FrameOk(s: State, f: Frame) {
    match f
    case ConnectTail(id) => 1 <= id <= s.sequence && Of(s.log, id).Attempt? && Of(s.log, id).line == NotYet
    case AfterHello(id) =>
      id <= s.sequence && !(s.life.Connecting? && s.life.id == id)
      && (s.life == Connected(id, true) ==> Of(s.log, id).Attempt? && !Of(s.log, id).connected)
    case AfterConnected(id) =>
      id <= s.sequence && !(s.life.Connecting? && s.life.id == id)
      && (s.life == Connected(id, true) ==> Of(s.log, id).Attempt? && Of(s.log, id).connected)
    case Rest(source, _) =>
      source <= s.sequence && (s.life.Disconnected? || s.life.id == source || s.life == Connecting(s.life.id, false))
    case AfterFail(closing) =>
      closing.Some? ==>
        1 <= closing.value <= s.sequence && !IsCurrent(s.life, closing.value)
        && Of(s.log, closing.value).Attempt? && Of(s.log, closing.value).line == Open
    case AfterSend(id) => id <= s.sequence
  }

  /** Frames that exist at most once per attempt. */
  function Key(f: Frame): Option<(bool, nat)> {
    match f
    case AfterHello(id) => Some((true, id))
    case AfterConnected(id) => Some((true, id))
    case AfterFail(Some(id)) => Some((false, id))
    case _ => None
  }

  ghost predicate Distinct(stack: seq<Frame>) {
    forall i, j :: 0 <= i < j < |stack| && Key(stack[i]).Some? ==> Key(stack[i]) != Key(stack[j])
  }

  ghost predicate FramesOk(s: State) {
    forall i :: 0 <= i < |s.stack| ==> FrameOk(s, s.stack[i])
  }

  ghost predicate OpeningOk(s: State) {
    forall id <- s.opening :: 1 <= id <= s.sequence && Of(s.log, id).Attempt? && Of(s.log, id).line == NotYet
  }

  ghost predicate Inv(s: State) {
    LifeOk(s.life, s.sequence) && AllFit(s) && FramesOk(s) && Distinct(s.stack) && OpeningOk(s)
  }

  // ----- Every step keeps it --------------------------------------------------------------------

  ghost predicate SameElsewhere(log: seq<Observed>, log': seq<Observed>, id: nat) {
    forall other: nat :: other != id ==> Of(log', other) == Of(log, other)
  }

  lemma Append1(log: seq<Observed>, o: Observed)
    ensures SameElsewhere(log, log + [o], o.id)
    ensures Of(log + [o], o.id) == Track(Of(log, o.id), o)
  {
    forall other: nat
      ensures Of(log + [o], other) == if o.id == other then Track(Of(log, other), o) else Of(log, other)
    {
      OfSnoc(log, o, other);
    }
  }

  lemma Append2(log: seq<Observed>, o1: Observed, o2: Observed)
    requires o1.id == o2.id
    ensures SameElsewhere(log, log + [o1, o2], o1.id)
    ensures Of(log + [o1, o2], o1.id) == Track(Track(Of(log, o1.id), o1), o2)
  {
    Append1(log, o1);
    Append1(log + [o1], o2);
    assert log + [o1, o2] == log + [o1] + [o2];
  }

  /** The current attempt ends: it is settled, and its transport is closed, gone or about to be closed. */
  lemma EndKeeps(s: State, log: seq<Observed>, closing: Option<nat>)
    requires Inv(s) && !s.life.Disconnected? && SameElsewhere(s.log, log, s.life.id)
    requires Of(log, s.life.id).Attempt? && Of(log, s.life.id).stage == Ended && Of(log, s.life.id).settled
    requires if closing.Some? then closing.value == s.life.id && Of(log, s.life.id).line == Open
             else Of(log, s.life.id).line != Open
    requires Of(log, s.life.id).line == NotYet <==> Of(s.log, s.life.id).line == NotYet
    ensures Inv(s.(life := Disconnected, log := log, stack := s.stack + [AfterFail(closing)]))
  {
    var f := AfterFail(closing);
    var s' := s.(life := Disconnected, log := log, stack := s.stack + [f]);
    assert Fits(s.life, s.sequence, s.stack, s.life.id, Of(s.log, s.life.id));
    EndKeepsFrames(s, log, f);
    EndKeepsFits(s, log, f);
  }

  lemma EndKeepsFits(s: State, log: seq<Observed>, f: Frame)
    requires AllFit(s) && LifeOk(s.life, s.sequence) && !s.life.Disconnected? && SameElsewhere(s.log, log, s.life.id)
    requires Of(log, s.life.id).Attempt? && Of(log, s.life.id).stage == Ended && Of(log, s.life.id).settled
    requires Of(log, s.life.id).line == Open ==> f == AfterFail(Some(s.life.id))
    ensures AllFit(s.(life := Disconnected, log := log, stack := s.stack + [f]))
  {
    forall id: nat ensures Fits(Disconnected, s.sequence, s.stack + [f], id, Of(log, id)) {
      assert Fits(s.life, s.sequence, s.stack, id, Of(s.log, id));
      assert forall g <- s.stack :: g in s.stack + [f];
      assert f in s.stack + [f];
    }
  }

  lemma EndKeepsFrames(s: State, log: seq<Observed>, f: Frame)
    requires FramesOk(s) && Distinct(s.stack) && LifeOk(s.life, s.sequence)
    requires !s.life.Disconnected? && SameElsewhere(s.log, log, s.life.id)
    requires Of(s.log, s.life.id).Attempt? && Of(log, s.life.id).Attempt?
    requires Of(log, s.life.id).line == NotYet <==> Of(s.log, s.life.id).line == NotYet
    requires f.AfterFail? && (f.closing.Some? ==> f.closing.value == s.life.id && Of(log, s.life.id).line == Open)
    ensures FramesOk(s.(life := Disconnected, log := log, stack := s.stack + [f])) && Distinct(s.stack + [f])
  {
    var s' := s.(life := Disconnected, log := log, stack := s.stack + [f]);
    forall i | 0 <= i < |s'.stack| ensures FrameOk(s', s'.stack[i]) {
      if i < |s.stack| {
        assert FrameOk(s, s.stack[i]);
      }
    }
    forall i, j | 0 <= i < j < |s'.stack| && Key(s'.stack[i]).Some? ensures Key(s'.stack[i]) != Key(s'.stack[j]) {
      if j == |s.stack| {
        assert FrameOk(s, s.stack[i]);
      }
    }
  }

  lemma FailAndCloseKeeps(s: State)
    requires Inv(s)
    ensures Inv(FailAndClose(s))
  {
    if !s.life.Disconnected? {
      var id := s.life.id;
      assert Fits(s.life, s.sequence, s.stack, id, Of(s.log, id));
      var closing := if HasTransport(s.life) then Some(id) else None;
      Append1(s.log, NotifyDisconnected(id));
      Append2(s.log, Rejected(id), NotifyDisconnected(id));
      assert s.log + [Rejected(id)] + [NotifyDisconnected(id)] == s.log + [Rejected(id), NotifyDisconnected(id)];
      EndKeeps(s, Fail(s, closing).log, closing);
    }
  }

  lemma PeerCloseKeeps(s: State, id: nat)
    requires Inv(s)
    ensures Inv(Step(s, PeerClose(id)))
  {
    if IsCurrent(s.life, id) {
      assert Fits(s.life, s.sequence, s.stack, id, Of(s.log, id));
      var log := s.log + [TransportGone(id)];
      Append1(s.log, TransportGone(id));
      Append1(log, NotifyDisconnected(id));
      Append2(log, Rejected(id), NotifyDisconnected(id));
      assert log + [Rejected(id)] + [NotifyDisconnected(id)] == log + [Rejected(id), NotifyDisconnected(id)];
      EndKeeps(s, Step(s, PeerClose(id)).log, None);
    }
  }

  lemma FactoryFailsKeeps(s: State, id: nat)
    requires Inv(s)
    ensures Inv(Step(s, FactoryFails(id)))
  {
    if id in s.opening && IsCurrent(s.life, id) {
      assert Fits(s.life, s.sequence, s.stack, id, Of(s.log, id));
      FailAndCloseKeeps(s.(opening := s.opening - {id}));
    }
  }

  lemma PushKeeps(s: State, f: Frame)
    requires Inv(s) && FrameOk(s, f)
    requires forall i :: 0 <= i < |s.stack| && Key(s.stack[i]).Some? ==> Key(s.stack[i]) != Key(f)
    ensures Inv(s.(stack := s.stack + [f]))
  {
    var s' := s.(stack := s.stack + [f]);
    forall id: nat ensures Fits(s.life, s.sequence, s'.stack, id, Of(s.log, id)) {
      assert Fits(s.life, s.sequence, s.stack, id, Of(s.log, id));
      assert forall g <- s.stack :: g in s'.stack;
    }
    forall i | 0 <= i < |s'.stack| ensures FrameOk(s', s'.stack[i]) {
      if i < |s.stack| {
        assert FrameOk(s, s.stack[i]);
      }
    }
  }

  /** Popping a frame that closes nothing. */
  lemma PopKeeps(s: State)
    requires Inv(s) && s.stack != []
    requires s.stack[|s.stack| - 1].AfterFail? ==> s.stack[|s.stack| - 1].closing.None?
    ensures Inv(Popped(s))
  {
    var s' := Popped(s);
    forall id: nat ensures Fits(s.life, s.sequence, s'.stack, id, Of(s.log, id)) {
      assert Fits(s.life, s.sequence, s.stack, id, Of(s.log, id));
      assert forall g <- s.stack :: g in s'.stack || g == s.stack[|s.stack| - 1];
    }
    forall i | 0 <= i < |s'.stack| ensures FrameOk(s', s'.stack[i]) {
      assert FrameOk(s, s.stack[i]);
    }
  }

  lemma CloseKeeps(s: State, id: nat)
    requires Inv(s) && s.stack != [] && s.stack[|s.stack| - 1] == AfterFail(Some(id))
    ensures Inv(Popped(s).(log := s.log + [TransportClosed(id)]))
  {
    var log := s.log + [TransportClosed(id)];
    Append1(s.log, TransportClosed(id));
    assert FrameOk(s, s.stack[|s.stack| - 1]);
    assert Fits(s.life, s.sequence, s.stack, id, Of(s.log, id));
    CloseKeepsFits(s, id, log);
    CloseKeepsFrames(s, id, log);
  }

  lemma CloseKeepsFits(s: State, id: nat, log: seq<Observed>)
    requires AllFit(s) && s.stack != [] && s.stack[|s.stack| - 1] == AfterFail(Some(id))
      && SameElsewhere(s.log, log, id)
    requires id != 0 && id <= s.sequence && !IsCurrent(s.life, id)
    requires Of(s.log, id).Attempt? && Of(log, id) == Of(s.log, id).(line := Done)
    ensures AllFit(Popped(s).(log := log))
  {
    var last := s.stack[|s.stack| - 1];
    forall other: nat ensures Fits(s.life, s.sequence, Popped(s).stack, other, Of(log, other)) {
      assert Fits(s.life, s.sequence, s.stack, other, Of(s.log, other));
      assert forall g <- s.stack :: g in Popped(s).stack || g == last;
    }
  }

  lemma CloseKeepsFrames(s: State, id: nat, log: seq<Observed>)
    requires FramesOk(s) && Distinct(s.stack) && OpeningOk(s) && SameElsewhere(s.log, log, id)
    requires s.stack != [] && s.stack[|s.stack| - 1] == AfterFail(Some(id))
    requires Of(s.log, id).Attempt? && Of(s.log, id).line == Open && Of(log, id) == Of(s.log, id).(line := Done)
    ensures var s' := Popped(s).(log := log); FramesOk(s') && Distinct(s'.stack) && OpeningOk(s')
  {
    var s', last := Popped(s).(log := log), s.stack[|s.stack| - 1];
    forall i | 0 <= i < |s'.stack| ensures FrameOk(s', s'.stack[i]) {
      assert FrameOk(s, s.stack[i]);
      assert Key(s.stack[i]).Some? ==> Key(s.stack[i]) != Key(last);
    }
  }

  lemma BirthKeeps(s: State, log: seq<Observed>)
    requires Inv(s) && s.life.Disconnected? && SameElsewhere(s.log, log, s.sequence + 1)
    requires Of(log, s.sequence + 1) == FRESH.(stage := Live)
    ensures Inv(s.(life := Connecting(s.sequence + 1, false), sequence := s.sequence + 1, log := log))
  {
    var s' := s.(life := Connecting(s.sequence + 1, false), sequence := s.sequence + 1, log := log);
    forall other: nat ensures Fits(s'.life, s'.sequence, s.stack, other, Of(log, other)) {
      assert Fits(s.life, s.sequence, s.stack, other, Of(s.log, other));
    }
    forall i | 0 <= i < |s.stack| ensures FrameOk(s', s.stack[i]) {
      assert FrameOk(s, s.stack[i]);
    }
  }

  lemma ConnectKeeps(s: State)
    requires Inv(s)
    ensures Inv(Step(s, Connect))
  {
    if s.life.Disconnected? {
      var id := s.sequence + 1;
      var log := s.log + [NotifyConnecting(id)];
      assert Of(log, id) == FRESH.(stage := Live) && SameElsewhere(s.log, log, id) by {
        assert Fits(s.life, s.sequence, s.stack, id, Of(s.log, id));
        Append1(s.log, NotifyConnecting(id));
      }
      BirthKeeps(s, log);
      PushKeeps(State(Connecting(id, false), id, s.opening, s.greeting, s.stack, log), ConnectTail(id));
    }
  }

  /**
   The current attempt goes on: its life changes, its part of the log grows, and everything else stays. The frames
   that wait for the attempt itself must fit what it has become.
   */
  lemma MoveKeeps(s: State, life: Life, log: seq<Observed>)
    requires Inv(s) && !s.life.Disconnected? && !life.Disconnected? && life.id == s.life.id
    requires SameElsewhere(s.log, log, life.id) && LiveFits(life, Of(log, life.id))
    requires Of(log, life.id).line == Of(s.log, life.id).line
    requires s.life.Connected? ==> life.Connected? && Of(log, life.id).connected == Of(s.log, life.id).connected
    requires s.life.Connected? && life.handshakePending ==> s.life.handshakePending
    requires s.life.Connecting? && life.Connecting? ==> life == s.life
    ensures Inv(s.(life := life, log := log))
  {
    var s' := s.(life := life, log := log);
    assert Fits(s.life, s.sequence, s.stack, life.id, Of(s.log, life.id));
    forall other: nat ensures Fits(life, s.sequence, s.stack, other, Of(log, other)) {
      assert Fits(s.life, s.sequence, s.stack, other, Of(s.log, other));
    }
    forall i | 0 <= i < |s'.stack| ensures FrameOk(s', s'.stack[i]) {
      assert FrameOk(s, s.stack[i]);
    }
  }

  /** No handshake continuation of an attempt waits while the attempt is still connecting. */
  lemma NoHandshakeFrames(s: State, f: Frame)
    requires FramesOk(s) && s.life.Connecting? && Key(f) == Some((true, s.life.id))
    ensures forall i :: 0 <= i < |s.stack| ==> Key(s.stack[i]) != Key(f)
  {
    forall i | 0 <= i < |s.stack| ensures Key(s.stack[i]) != Key(f) {
      assert FrameOk(s, s.stack[i]);
    }
  }

  lemma HandleMessageKeeps(s: State, source: nat, message: Message)
    requires Inv(s) && !s.life.Disconnected?
    requires s.life.Connected? ==> s.life.id == source
    ensures Inv(HandleMessage(s, source, message))
  {
    var id := s.life.id;
    assert Fits(s.life, s.sequence, s.stack, id, Of(s.log, id));
    if s.life.Connecting? && message == Hello(true) && s.life.transport {
      var log := s.log + [HelloSeen(id)];
      Append1(s.log, HelloSeen(id));
      NoHandshakeFrames(s, AfterHello(id));
      MoveKeeps(s, Connected(id, true), log);
      PushKeeps(s.(life := Connected(id, true), log := log), AfterHello(id));
    } else if s.life.Connected? && message.Other? {
      Append1(s.log, Delivered(id, source, message.payload));
      MoveKeeps(s, s.life, s.log + [Delivered(id, source, message.payload)]);
    } else {
      FailAndCloseKeeps(s);
    }
  }

  /** A chunk goes on only for the attempt it belongs to, or against one that has no transport yet. */
  ghost predicate MayRun(s: State, source: nat) {
    source <= s.sequence && (s.life.Disconnected? || s.life.id == source || s.life == Connecting(s.life.id, false))
  }

  lemma RunRestKeeps(s: State, source: nat, messages: seq<Message>)
    requires Inv(s) && MayRun(s, source)
    ensures Inv(RunRest(s, source, messages))
  {
    if messages != [] && !s.life.Disconnected? {
      PushKeeps(s, Rest(source, messages[1..]));
      HandleMessageKeeps(s.(stack := s.stack + [Rest(source, messages[1..])]), source, messages[0]);
    }
  }

  lemma ReturnAfterHelloKeeps(s: State, t: State, id: nat)
    requires Inv(s) && s.stack != [] && s.stack[|s.stack| - 1] == AfterHello(id) && t == Popped(s) && Inv(t)
    requires t.life == Connected(id, true)
    ensures Inv(t.(log := t.log + [NotifyConnected(id)], stack := t.stack + [AfterConnected(id)]))
  {
    var log := t.log + [NotifyConnected(id)];
    assert Fits(t.life, t.sequence, t.stack, id, Of(t.log, id));
    assert FrameOk(s, s.stack[|s.stack| - 1]);
    Append1(t.log, NotifyConnected(id));
    var u := t.(log := log);
    forall other: nat ensures Fits(u.life, u.sequence, u.stack, other, Of(log, other)) {
      assert Fits(t.life, t.sequence, t.stack, other, Of(t.log, other));
    }
    forall i | 0 <= i < |t.stack| ensures FrameOk(u, t.stack[i]) && Key(t.stack[i]) != Key(AfterConnected(id)) {
      assert t.stack[i] == s.stack[i];
      assert FrameOk(t, t.stack[i]);
      assert Key(s.stack[i]).Some? ==> Key(s.stack[i]) != Key(s.stack[|s.stack| - 1]);
    }
    PushKeeps(u, AfterConnected(id));
  }

  lemma ReturnAfterConnectedKeeps(s: State, t: State, id: nat)
    requires Inv(s) && s.stack != [] && s.stack[|s.stack| - 1] == AfterConnected(id) && t == Popped(s) && Inv(t)
    requires t.life == Connected(id, true)
    ensures Inv(t.(life := Connected(id, false), log := t.log + [Resolved(id)]))
  {
    assert Fits(t.life, t.sequence, t.stack, id, Of(t.log, id));
    assert FrameOk(s, s.stack[|s.stack| - 1]);
    Append1(t.log, Resolved(id));
    MoveKeeps(t, Connected(id, false), t.log + [Resolved(id)]);
  }

  lemma ReturnConnectTailKeeps(t: State, id: nat)
    requires Inv(t) && FrameOk(t, ConnectTail(id))
    ensures Inv(t.(opening := t.opening + {id}, log := t.log + [FactoryCalled(id)]))
  {
    var s' := t.(opening := t.opening + {id}, log := t.log + [FactoryCalled(id)]);
    Append1(t.log, FactoryCalled(id));
    assert Fits(t.life, t.sequence, t.stack, id, Of(t.log, id));
    assert Of(s'.log, id) == Of(t.log, id);
    forall other: nat ensures Of(s'.log, other) == Of(t.log, other) {
    }
    forall other: nat ensures Fits(s'.life, s'.sequence, s'.stack, other, Of(s'.log, other)) {
      assert Fits(t.life, t.sequence, t.stack, other, Of(t.log, other));
    }
    forall i | 0 <= i < |s'.stack| ensures FrameOk(s', s'.stack[i]) {
      assert FrameOk(t, t.stack[i]);
    }
  }

  lemma ReturnKeeps(s: State, threw: bool)
    requires Inv(s)
    ensures Inv(Returned(s, threw))
  {
    if s.stack != [] {
      var t, f := Popped(s), s.stack[|s.stack| - 1];
      assert FrameOk(s, f);
      if f.AfterFail? && f.closing.Some? {
        CloseKeeps(s, f.closing.value);
      } else {
        PopKeeps(s);
        FailAndCloseKeeps(t);
        match f {
          case ConnectTail(id) => ReturnConnectTailKeeps(t, id);
          case AfterHello(id) =>
            if t.life == Connected(id, true) {
              ReturnAfterHelloKeeps(s, t, id);
            }
          case AfterConnected(id) =>
            if t.life == Connected(id, true) {
              ReturnAfterConnectedKeeps(s, t, id);
            }
          case Rest(source, messages) => RunRestKeeps(t, source, messages);
          case _ =>
        }
      }
    }
  }

  lemma ArrivalKeeps(s: State, id: nat)
    requires Inv(s) && s.stack == [] && id in s.opening
    ensures Inv(Arrived(s, id))
  {
    var s' := Arrived(s, id);
    assert Fits(s.life, s.sequence, s.stack, id, Of(s.log, id));
    if s.life.Connecting? && s.life.id == id {
      assert !s.life.transport;
      Append2(s.log, TransportArrived(id), SentHello(id));
    } else {
      Append2(s.log, TransportArrived(id), TransportClosed(id));
    }
    forall other: nat ensures Fits(s'.life, s'.sequence, s'.stack, other, Of(s'.log, other)) {
      assert Fits(s.life, s.sequence, s.stack, other, Of(s.log, other));
    }
  }

  lemma SendKeeps(s: State)
    requires Inv(s)
    ensures Inv(Step(s, Send))
  {
    if s.life.Connected? {
      var id := s.life.id;
      assert Fits(s.life, s.sequence, s.stack, id, Of(s.log, id));
      Append1(s.log, SentFrame(id));
      MoveKeeps(s, s.life, s.log + [SentFrame(id)]);
      PushKeeps(s.(log := s.log + [SentFrame(id)]), AfterSend(id));
    }
  }

  lemma StepKeeps(s: State, e: Event)
    requires Inv(s)
    ensures Inv(Step(s, e))
  {
    FailAndCloseKeeps(s);
    match e {
      case Connect => ConnectKeeps(s);
      case Send => SendKeeps(s);
      case Data(id, decoded) =>
        if IsCurrent(s.life, id) && decoded.Some? {
          RunRestKeeps(s, id, decoded.value);
        }
      case PeerClose(id) => PeerCloseKeeps(s, id);
      case Return(threw) => ReturnKeeps(s, threw);
      case TransportArrives(id) =>
        if s.stack == [] && id in s.opening {
          ArrivalKeeps(s, id);
        }
      case FactoryFails(id) => FactoryFailsKeeps(s, id);
      case HelloRejects(id) => FailAndCloseKeeps(s.(greeting := s.greeting - {id}));
      case _ =>
    }
  }

  /** The invariant holds after any sequence of calls, callbacks and stale callbacks, however they nest. */
  lemma {:induction false} RunKeeps(events: seq<Event>)
    ensures Inv(Run(events))
  {
    if events != [] {
      RunKeeps(events[..|events| - 1]);
      StepKeeps(Run(events[..|events| - 1]), events[|events| - 1]);
    }
  }

  // ----- What follows for whole runs ------------------------------------------------------------

  /**
   No attempt ever shows anything out of order; every attempt but the current one has ended with its handshake
   settled; and once no code is running, no transport but the current one is open.
   */
  lemma EveryAttemptInOrder(events: seq<Event>, id: nat)
    ensures var s, a := Run(events), Of(Run(events).log, id);
      && a.Attempt?
      && (1 <= id <= s.sequence && !IsCurrent(s.life, id) ==> a.stage == Ended && a.settled)
      && (IsCurrent(s.life, id) ==> LiveFits(s.life, a))
      && (s.stack == [] ==> (a.line == Open <==> IsCurrent(s.life, id) && HasTransport(s.life)))
  {
    RunKeeps(events);
    var s := Run(events);
    assert Fits(s.life, s.sequence, s.stack, id, Of(s.log, id));
  }

  /** The factory was called for the attempt, or will be when the connecting callback returns. */
  predicate Asks(s: State, id: nat) {
    FactoryCalled(id) in s.log || ConnectTail(id) in s.stack
  }

  lemma StepGrows(s: State, e: Event)
    ensures s.log <= Step(s, e).log
    ensures s.sequence <= Step(s, e).sequence
    ensures s.sequence < Step(s, e).sequence ==>
      Step(s, e).sequence == s.sequence + 1 && ConnectTail(s.sequence + 1) in Step(s, e).stack
  {
    if e.Connect? && s.life.Disconnected? {
      assert Step(s, e).stack[|s.stack|] == ConnectTail(s.sequence + 1);
    }
  }

  lemma StepAsks(s: State, e: Event, id: nat)
    requires Asks(s, id)
    ensures Asks(Step(s, e), id)
  {
    var s' := Step(s, e);
    StepGrows(s, e);
    if FactoryCalled(id) in s.log {
      assert forall o <- s.log :: o in s'.log;
    } else if e.Return? {
      ReturnAsks(s, e.threw, id);
    } else {
      StackKept(s, e);
      assert forall f <- s.stack :: f in s'.stack;
    }
  }

  lemma StackKept(s: State, e: Event)
    requires !e.Return?
    ensures s.stack <= Step(s, e).stack
  {
  }

  lemma ReturnAsks(s: State, threw: bool, id: nat)
    requires ConnectTail(id) in s.stack
    ensures Asks(Returned(s, threw), id)
  {
    var s' := Returned(s, threw);
    var last := s.stack[|s.stack| - 1];
    if last == ConnectTail(id) {
      assert s'.log[|s.log|] == FactoryCalled(id);
    } else {
      assert ConnectTail(id) in Popped(s).stack by { assert s.stack == Popped(s).stack + [last]; }
      ReturnKeepsStack(s, threw);
      assert forall f <- Popped(s).stack :: f in s'.stack;
    }
  }

  lemma ReturnKeepsStack(s: State, threw: bool)
    requires s.stack != []
    ensures Popped(s).stack <= Returned(s, threw).stack
  {
  }

  /** Once no code runs, the factory was called for every attempt ever begun, even one ended by its first callback. */
  lemma {:induction false} EveryAttemptAsks(events: seq<Event>, id: nat)
    requires 1 <= id <= Run(events).sequence
    ensures Asks(Run(events), id)
    ensures Run(events).stack == [] ==> FactoryCalled(id) in Run(events).log
  {
    var init, e := events[..|events| - 1], events[|events| - 1];
    if id <= Run(init).sequence {
      EveryAttemptAsks(init, id);
      StepAsks(Run(init), e, id);
    } else {
      BornAsking(Run(init), e, id);
    }
  }

  lemma BornAsking(s: State, e: Event, id: nat)
    requires s.sequence < id <= Step(s, e).sequence
    ensures Asks(Step(s, e), id)
  {
    StepGrows(s, e);
  }

  predicate Settles(o: Observed, id: nat) {
    o == Resolved(id) || o == Rejected(id)
  }

  /** What the summary of an attempt keeps of its log. */
  lemma {:induction false} SettledMeans(log: seq<Observed>, id: nat)
    requires Of(log, id).Attempt?
    ensures Of(log, id).settled <==> exists i :: 0 <= i < |log| && Settles(log[i], id)
  {
    if log != [] {
      var n := |log| - 1;
      var init, o := log[..n], log[n];
      SettledMeans(init, id);
      if i :| 0 <= i < |init| && Settles(init[i], id) {
        assert Settles(log[i], id);
      }
      if i :| 0 <= i < |log| && Settles(log[i], id) {
        assert i < n ==> Settles(init[i], id);
      }
    }
  }

  lemma {:induction false} HelloMeans(log: seq<Observed>, id: nat)
    requires Of(log, id).Attempt?
    ensures Of(log, id).hello <==> HelloSeen(id) in log
  {
    if log != [] {
      HelloMeans(log[..|log| - 1], id);
      assert log == log[..|log| - 1] + [log[|log| - 1]];
    }
  }

  lemma {:induction false} ArrivedMeans(log: seq<Observed>, id: nat)
    requires Of(log, id).Attempt?
    ensures Of(log, id).line == NotYet ==> TransportArrived(id) !in log
  {
    if log != [] {
      ArrivedMeans(log[..|log| - 1], id);
      assert log == log[..|log| - 1] + [log[|log| - 1]];
    }
  }

  lemma {:induction false} GoodPrefix(log: seq<Observed>, n: nat, id: nat)
    requires n <= |log| && Of(log, id).Attempt?
    ensures Of(log[..n], id).Attempt?
  {
    if n < |log| {
      assert log[..|log| - 1][..n] == log[..n];
      GoodPrefix(log[..|log| - 1], n, id);
    } else {
      assert log[..n] == log;
    }
  }

  /** A handshake settles at most once, in every run. */
  lemma SettlesAtMostOnce(events: seq<Event>, id: nat, i: nat, j: nat)
    requires i < |Run(events).log| && j < |Run(events).log|
    requires Settles(Run(events).log[i], id) && Settles(Run(events).log[j], id)
    ensures i == j
  {
    if i < j {
      SettlesOnceInOrder(events, id, i, j);
    } else if j < i {
      SettlesOnceInOrder(events, id, j, i);
    }
  }

  lemma SettlesOnceInOrder(events: seq<Event>, id: nat, i: nat, j: nat)
    requires i < j < |Run(events).log| && Settles(Run(events).log[i], id)
    ensures !Settles(Run(events).log[j], id)
  {
    EveryAttemptInOrder(events, id);
    SettledOnce(Run(events).log, id, i, j);
  }

  lemma SettledOnce(log: seq<Observed>, id: nat, i: nat, j: nat)
    requires Of(log, id).Attempt? && i < j < |log| && Settles(log[i], id)
    ensures !Settles(log[j], id)
  {
    GoodPrefix(log, j, id);
    GoodPrefix(log, j + 1, id);
    assert log[..j + 1] == log[..j] + [log[j]] && log[..j][i] == log[i];
    OfSnoc(log[..j], log[j], id);
    SettledMeans(log[..j], id);
  }

  /** onMessage gets only messages of the attempt that is current then, and only after that attempt's hello. */
  lemma DeliveredAfterOwnHello(events: seq<Event>, k: nat)
    requires k < |Run(events).log| && Run(events).log[k].Delivered?
    ensures Run(events).log[k].source == Run(events).log[k].id
    ensures HelloSeen(Run(events).log[k].id) in Run(events).log[..k]
  {
    EveryAttemptInOrder(events, Run(events).log[k].id);
    DeliveredInOrder(Run(events).log, k);
  }

  lemma DeliveredInOrder(log: seq<Observed>, k: nat)
    requires k < |log| && log[k].Delivered? && Of(log, log[k].id).Attempt?
    ensures log[k].source == log[k].id && HelloSeen(log[k].id) in log[..k]
  {
    var id := log[k].id;
    GoodPrefix(log, k, id);
    GoodPrefix(log, k + 1, id);
    assert log[..k + 1] == log[..k] + [log[k]];
    OfSnoc(log[..k], log[k], id);
    HelloMeans(log[..k], id);
  }

  /** A transport that arrives, at whatever moment, is closed or gone once its attempt is over and no code runs. */
  lemma NoTransportLeaks(events: seq<Event>, id: nat)
    requires var s := Run(events); s.stack == [] && !IsCurrent(s.life, id) && TransportArrived(id) in s.log
    ensures var a := Of(Run(events).log, id); a.Attempt? && a.line == Done && a.stage == Ended
  {
    EveryAttemptInOrder(events, id);
    ArrivedMeans(Run(events).log, id);
    RunKeeps(events);
    var s := Run(events);
    assert Fits(s.life, s.sequence, s.stack, id, Of(s.log, id));
  }

  /** What onStateChange tells of one attempt. */
  datatype Notice = NoticeConnecting | NoticeConnected | NoticeDisconnected

  function Notices(log: seq<Observed>, id: nat): seq<Notice> {
    if log == [] then []
    else
      Notices(log[..|log| - 1], id) +
      match log[|log| - 1]
      case NotifyConnecting(i) => if i == id then [NoticeConnecting] else []
      case NotifyConnected(i) => if i == id then [NoticeConnected] else []
      case NotifyDisconnected(i) => if i == id then [NoticeDisconnected] else []
      case _ => []
  }

  function Spelled(a: Attempt): seq<Notice> {
    if a.Bad? || a.stage == Unborn then []
    else [NoticeConnecting] + (if a.connected then [NoticeConnected] else [])
         + (if a.stage == Ended then [NoticeDisconnected] else [])
  }

  lemma {:induction false} NoticesSpelled(log: seq<Observed>, id: nat)
    requires Of(log, id).Attempt?
    ensures Notices(log, id) == Spelled(Of(log, id))
    ensures Of(log, id).connected ==> Of(log, id).stage != Unborn
  {
    if log != [] {
      NoticesSpelled(log[..|log| - 1], id);
    }
  }

  /** Per attempt the notices spell connecting (connected)? disconnected, whole once the attempt is over. */
  lemma NoticesPerAttempt(events: seq<Event>, id: nat)
    requires 1 <= id <= Run(events).sequence
    ensures var s, notices := Run(events), Notices(Run(events).log, id);
      if IsCurrent(s.life, id) then notices == [NoticeConnecting] || notices == [NoticeConnecting, NoticeConnected]
      else notices == [NoticeConnecting, NoticeDisconnected]
           || notices == [NoticeConnecting, NoticeConnected, NoticeDisconnected]
  {
    EveryAttemptInOrder(events, id);
    NoticesSpelled(Run(events).log, id);
  }

  lemma NoticesWhileConnecting(events: seq<Event>, id: nat)
    requires Run(events).life.Connecting? && Run(events).life.id == id
    ensures Notices(Run(events).log, id) == [NoticeConnecting]
  {
    RunKeeps(events);
    assert LiveFits(Run(events).life, Of(Run(events).log, id));
    NoticesSpelled(Run(events).log, id);
  }

  /**
   Entry k of a log: it settles its attempt for the first time, or it delivers what came after that attempt's hello.
   */
  ghost predicate InOrder(log: seq<Observed>, k: nat)
    requires k < |log|
  {
    && (Settles(log[k], log[k].id) ==> forall i :: 0 <= i < k ==> !Settles(log[i], log[k].id))
    && (log[k].Delivered? ==> log[k].source == log[k].id && HelloSeen(log[k].id) in log[..k])
  }

  lemma ShownInOrder(events: seq<Event>, k: nat)
    requires k < |Run(events).log|
    ensures InOrder(Run(events).log, k)
  {
    var log := Run(events).log;
    if log[k].Delivered? {
      DeliveredAfterOwnHello(events, k);
    }
    if Settles(log[k], log[k].id) {
      forall i | 0 <= i < k ensures !Settles(log[i], log[k].id) {
        if Settles(log[i], log[k].id) {
          SettlesAtMostOnce(events, log[k].id, i, k);
        }
      }
    }
  }

  /** Every attempt asked for a transport, and none that arrived for an ended attempt is open. */
  ghost predicate Settled(s: State) {
    forall id {:trigger Of(s.log, id)} :: 1 <= id <= s.sequence ==>
      && FactoryCalled(id) in s.log
      && (!IsCurrent(s.life, id) && TransportArrived(id) in s.log ==>
            Of(s.log, id).Attempt? && Of(s.log, id).line == Done)
  }

  lemma AtRest(events: seq<Event>)
    requires Run(events).stack == []
    ensures Settled(Run(events))
  {
    var s := Run(events);
    forall id | 1 <= id <= s.sequence
      ensures FactoryCalled(id) in s.log
      ensures !IsCurrent(s.life, id) && TransportArrived(id) in s.log ==>
        Of(s.log, id).Attempt? && Of(s.log, id).line == Done
    {
      EveryAttemptAsks(events, id);
      if !IsCurrent(s.life, id) && TransportArrived(id) in s.log {
        NoTransportLeaks(events, id);
      }
    }
  }

  // ----- Which hello connects -------------------------------------------------------------------

  /** From `s` to `s'` the current attempt ends: its handshake is rejected if it was pending, and its owner is told. */
  predicate Ends(s: State, s': State) {
    && !s.life.Disconnected? && s'.life == Disconnected
    && s'.log == s.log + (if s.life == Connected(s.life.id, false) then [] else [Rejected(s.life.id)])
                       + [NotifyDisconnected(s.life.id)]
  }

  /** The chunk begins with the hello of the expected server. */
  predicate StartsWithHello(decoded: Option<seq<Message>>) {
    decoded.Some? && decoded.value != [] && decoded.value[0] == Hello(true)
  }

  /**
   What a chunk does up to its first callback. One that is not of the current attempt does nothing; one that comes
   before the transport, or does not decode, ends the attempt. Then its first message decides: while connecting, only
   the hello of the expected server connects, and once connected only another message is delivered; anything else ends
   the attempt.
   */
  predicate ChunkDecides(s: State, id: nat, decoded: Option<seq<Message>>, s': State) {
    if s.life.Disconnected? || s.life.id != id then s' == s
    else if s.life == Connecting(id, false) || decoded.None? then Ends(s, s')
    else if decoded.value == [] then s' == s
    else if s.life.Connecting? then
      if StartsWithHello(decoded) then s'.life == Connected(id, true) && s'.log == s.log + [HelloSeen(id)]
      else Ends(s, s')
    else
      match decoded.value[0]
      case Other(payload) => s'.life == s.life && s'.log == s.log + [Delivered(id, id, payload)]
      case _ => Ends(s, s')
  }

  lemma FailingEnds(s: State)
    requires !s.life.Disconnected?
    ensures Ends(s, FailAndClose(s))
  {
    assert s.log + [] == s.log;
  }

  lemma FirstMessageDecides(s: State, id: nat, decoded: Option<seq<Message>>)
    ensures ChunkDecides(s, id, decoded, HandleData(s, id, decoded))
  {
    if IsCurrent(s.life, id) {
      FailingEnds(s);
      if decoded.Some? && decoded.value != [] {
        FailingEnds(s.(stack := s.stack + [Rest(id, decoded.value[1..])]));
      }
    }
  }

  /** Between the arrival of its transport and its hello an attempt runs no code: no chunk is half done. */
  lemma {:induction false} TransportWaitsAlone(events: seq<Event>)
    ensures Run(events).life.Connecting? && Run(events).life.transport ==> Run(events).stack == []
  {
    if events != [] {
      var s, e := Run(events[..|events| - 1]), events[|events| - 1];
      TransportWaitsAlone(events[..|events| - 1]);
      match e {
        case Data(id, decoded) => FirstMessageDecides(s, id, decoded);
        case Return(threw) => ReturnNeverOpens(s, threw);
        case _ =>
      }
    }
  }

  /** A callback that returns never brings a transport, nor a connection. */
  lemma ReturnNeverOpens(s: State, threw: bool)
    requires s.life.Connecting? && s.life.transport ==> s.stack == []
    ensures var s' := Returned(s, threw);
      && (s'.life.Connecting? ==> s'.life == s.life)
      && (s'.life.Connected? ==> s.life.Connected? && s'.life.id == s.life.id)
  {
  }

  /**
   A step connects exactly if an attempt that has its transport gets a chunk of its own that begins with the hello of
   the expected server.
   */
  lemma ConnectsExactlyByHello(events: seq<Event>, e: Event)
    ensures var s, s' := Run(events), Run(events + [e]);
      s'.life.Connected? && !s.life.Connected? <==>
        s.life.Connecting? && s.life.transport && e.Data? && e.id == s.life.id && StartsWithHello(e.decoded)
  {
    RunMore(events, e);
    TransportWaitsAlone(events);
    var s := Run(events);
    match e {
      case Data(id, decoded) => FirstMessageDecides(s, id, decoded);
      case Return(threw) => ReturnNeverOpens(s, threw);
      case _ =>
    }
  }

  /** Event n is the chunk with the expected hello that attempt `id` was waiting for, its transport being there. */
  ghost predicate Greets(events: seq<Event>, n: nat, id: nat) {
    && n < |events| && Run(events[..n]).life == Connecting(id, true)
    && events[n].Data? && events[n].id == id && StartsWithHello(events[n].decoded)
  }

  lemma SameAttempt(s: State, e: Event)
    requires s.life.Connected? && Step(s, e).life.Connected?
    ensures Step(s, e).life.id == s.life.id
  {
    if e.Data? {
      FirstMessageDecides(s, e.id, e.decoded);
    }
  }

  lemma GreetedBefore(init: seq<Event>, e: Event, n: nat, id: nat)
    requires Greets(init, n, id)
    ensures Greets(init + [e], n, id)
  {
    assert (init + [e])[..n] == init[..n];
  }

  lemma GreetedNow(init: seq<Event>, e: Event)
    requires !Run(init).life.Connected? && Run(init + [e]).life.Connected?
    ensures Greets(init + [e], |init|, Run(init + [e]).life.id)
  {
    ConnectsExactlyByHello(init, e);
    RunMore(init, e);
    FirstMessageDecides(Run(init), e.id, e.decoded);
    assert (init + [e])[..|init|] == init;
  }

  /** A connection has been greeted by the expected server on its own transport. */
  lemma {:induction false} ConnectedWasGreeted(events: seq<Event>)
    requires Run(events).life.Connected?
    ensures exists n: nat :: Greets(events, n, Run(events).life.id)
  {
    var init, e := events[..|events| - 1], events[|events| - 1];
    assert events == init + [e];
    if Run(init).life.Connected? {
      ConnectedWasGreeted(init);
      SameAttempt(Run(init), e);
      var n: nat :| Greets(init, n, Run(init).life.id);
      GreetedBefore(init, e, n, Run(init).life.id);
    } else {
      GreetedNow(init, e);
    }
  }

  // ----- Chunks ---------------------------------------------------------------------------------

  function Returns(s: State, n: nat): State
    decreases n
  {
    if n == 0 then s else Returns(Returned(s, false), n - 1)
  }

  function DeliveredAll(id: nat, messages: seq<Message>): seq<Observed>
    requires forall i :: 0 <= i < |messages| ==> messages[i].Other?
  {
    if messages == [] then [] else [Delivered(id, id, messages[0].payload)] + DeliveredAll(id, messages[1..])
  }

  /** When onMessage only returns, a chunk of an established attempt is delivered whole and in order. */
  lemma {:induction false} WholeChunkDelivered(s: State, messages: seq<Message>)
    requires s.life.Connected? && forall i :: 0 <= i < |messages| ==> messages[i].Other?
    ensures Returns(HandleData(s, s.life.id, Some(messages)), |messages|)
         == s.(log := s.log + DeliveredAll(s.life.id, messages))
    decreases messages
  {
    var id := s.life.id;
    if messages == [] {
      assert s.log + [] == s.log;
    } else {
      var rest := messages[1..];
      var o := Delivered(id, id, messages[0].payload);
      var t := s.(log := s.log + [o]);
      var u := HandleData(s, id, Some(messages));
      assert u == t.(stack := s.stack + [Rest(id, rest)]);
      assert Popped(u) == t by { assert (s.stack + [Rest(id, rest)])[..|s.stack|] == s.stack; }
      assert Returned(u, false) == RunRest(t, id, rest) == HandleData(t, id, Some(rest));
      WholeChunkDelivered(t, rest);
      assert s.log + ([o] + DeliveredAll(id, rest)) == s.log + [o] + DeliveredAll(id, rest);
    }
  }

  /**
   The message loop re-checks only for the disconnected state, so what is left of an old chunk meets an attempt that
   a callback began meanwhile. That attempt survives exactly when nothing is left; its owner never sees the leftovers.
   */
  lemma NewAttemptSurvivesOnlyEmptyRest(events: seq<Event>, threw: bool, source: nat, messages: seq<Message>)
    requires var s := Run(events);
      s.stack != [] && s.stack[|s.stack| - 1] == Rest(source, messages) && !s.life.Disconnected? && s.life.id != source
    ensures var s, s' := Run(events), Step(Run(events), Return(threw));
      && (s'.life == s.life <==> messages == [])
      && (messages != [] ==>
          s'.life == Disconnected && s'.log == s.log + [Rejected(s.life.id), NotifyDisconnected(s.life.id)])
  {
    RunKeeps(events);
    var s := Run(events);
    assert FrameOk(s, s.stack[|s.stack| - 1]);
    assert s.log + [Rejected(s.life.id)] + [NotifyDisconnected(s.life.id)]
        == s.log + [Rejected(s.life.id), NotifyDisconnected(s.life.id)];
  }

  lemma RunMore(events: seq<Event>, e: Event)
    ensures Run(events + [e]) == Step(Run(events), e)
  {
    assert (events + [e])[..|events|] == events;
  }

  lemma OneByOne<T>(s: seq<T>, a: T, b: T, c: T)
    ensures s + [a, b] == s + [a] + [b]
    ensures s + [a, b, c] == s + [a] + [b] + [c]
  {
  }

  /** An attempt begun and its transport delivered. */
  const ARRIVED: seq<Event> := [] + [Connect, Return(false), TransportArrives(1)]

  const LEFT: seq<Message> := [Other("a"), Other("b")]

  /** A chunk of the hello and two messages, up to the first onMessage. */
  const OPENING: seq<Event> :=
    ARRIVED + [Data(1, Some([Hello(true)] + LEFT)), Return(false), Return(false)] + [Return(false)]

  /** That onMessage disconnects, connects again and returns. */
  const RECONNECTING: seq<Event> := [Disconnect, Return(false), Connect, Return(false), Return(false)]

  lemma ConnectReturns(s: State)
    requires s.life.Disconnected? && s.stack == [] && s.opening == {}
    ensures var id, t := s.sequence + 1, Step(Step(s, Connect), Return(false));
      t.life == Connecting(id, false) && t.sequence == id && t.stack == [] && id in t.opening
  {
    assert Step(s, Connect).stack == [ConnectTail(s.sequence + 1)];
  }

  lemma OpeningConnects()
    ensures Run(ARRIVED).life == Connecting(1, true) && Run(ARRIVED).stack == [] && Run(ARRIVED).sequence == 1
  {
    var e1: seq<Event> := [] + [Connect];
    var e2 := e1 + [Return(false)];
    RunMore([], Connect);
    RunMore(e1, Return(false));
    ConnectReturns(START);
    RunMore(e2, TransportArrives(1));
    assert ARRIVED == e2 + [TransportArrives(1)];
  }

  lemma OpeningReaches()
    ensures Run(OPENING).life == Connected(1, false) && Run(OPENING).sequence == 1
    ensures Run(OPENING).stack == [Rest(1, [Other("b")])]
  {
    var data := Data(1, Some([Hello(true)] + LEFT));
    OpeningConnects();
    OneByOne(ARRIVED, data, Return(false), Return(false));
    RunMore(ARRIVED, data);
    RunMore(ARRIVED + [data], Return(false));
    RunMore(ARRIVED + [data] + [Return(false)], Return(false));
    var s4 := Step(Run(ARRIVED), data);
    assert s4.life == Connected(1, true) && s4.sequence == 1 && s4.stack == [Rest(1, LEFT), AfterHello(1)] by {
      assert ([Hello(true)] + LEFT)[1..] == LEFT;
    }
    var s5 := Step(s4, Return(false));
    assert s5.life == s4.life && s5.sequence == 1 && s5.stack == [Rest(1, LEFT), AfterConnected(1)];
    var s6 := Step(s5, Return(false));
    assert s6.life == Connected(1, false) && s6.sequence == 1 && s6.stack == [Rest(1, LEFT)];
    RunMore(ARRIVED + [data, Return(false), Return(false)], Return(false));
    assert LEFT[1..] == [Other("b")];
  }

  /** The new attempt is gone, rejected by a message of the old one, though nobody disconnected it. */
  lemma ReconnectInsideCallbackFails()
    ensures Run(OPENING + RECONNECTING[..4]).life == Connecting(2, false)
    ensures Run(OPENING + RECONNECTING).life == Disconnected && Rejected(2) in Run(OPENING + RECONNECTING).log
  {
    OpeningReaches();
    var e1 := OPENING + [Disconnect];
    RunMore(OPENING, Disconnect);
    assert Run(e1).stack == [Rest(1, [Other("b")]), AfterFail(Some(1))];
    var e2 := e1 + [Return(false)];
    RunMore(e1, Return(false));
    assert Run(e2).life == Disconnected && Run(e2).sequence == 1 && Run(e2).stack == [Rest(1, [Other("b")])];
    var e3 := e2 + [Connect];
    RunMore(e2, Connect);
    assert Run(e3).life == Connecting(2, false) && Run(e3).stack == [Rest(1, [Other("b")]), ConnectTail(2)];
    var e4 := e3 + [Return(false)];
    RunMore(e3, Return(false));
    assert Run(e4).life == Connecting(2, false) && Run(e4).stack == [Rest(1, [Other("b")])];
    assert e4 == OPENING + RECONNECTING[..4];
    RunMore(e4, Return(false));
    assert e4 + [Return(false)] == OPENING + RECONNECTING;
    NewAttemptSurvivesOnlyEmptyRest(e4, false, 1, [Other("b")]);
  }
}
