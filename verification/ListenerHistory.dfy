/** What a listener has become, read off everything that was called and everything that happened to it. */
module ListenerHistory {
  import opened Results
  import opened R = RuntimeLifecycle

  /** A call, or a turn of the event loop. */
  datatype Act = CallStart(unbound: bool, listenThrows: bool) | CallClose | Happens(turn: Turn)

  function Live(c: Runtime, a: Act): Runtime {
    match a
    case CallStart(unbound, listenThrows) => R.Start(c, unbound, listenThrows)
    case CallClose => Close(c)
    case Happens(turn) => Next(c, turn)
  }

  function Lived(h: seq<Act>): Runtime {
    if h == [] then Created() else Live(Lived(h[..|h| - 1]), h[|h| - 1])
  }

  lemma {:induction false} LivedOk(h: seq<Act>)
    ensures Inv(Lived(h))
  {
    hide Inv, R.Start, Close, Next;
    if h == [] {
      CreatedOk();
    } else {
      var c := Lived(h[..|h| - 1]);
      LivedOk(h[..|h| - 1]);
      match h[|h| - 1]
      case CallStart(unbound, listenThrows) => StartMoves(c, unbound, listenThrows);
      case CallClose => CloseMoves(c);
      case Happens(turn) => TurnMoves(c, turn);
    }
  }

  // What is looked for in a history.

  datatype Query = Starts | Closes | Answers

  predicate Meets(a: Act, q: Query) {
    match q
    case Starts => a.CallStart?
    case Closes => a.CallClose?
    case Answers => a.Happens? && (a.turn.Listening? || a.turn.BindError?)
  }

  /** The first act from a position on that meets the query. */
  function First(h: seq<Act>, q: Query, from: nat): (k: Option<nat>)
    ensures k.Some? ==> from <= k.value < |h| && Meets(h[k.value], q)
    ensures forall j :: from <= j < (if k.Some? then k.value else |h|) ==> !Meets(h[j], q)
    decreases |h| - from
  {
    if from >= |h| then None else if Meets(h[from], q) then Some(from) else First(h, q, from + 1)
  }

  lemma FirstAppended(h: seq<Act>, q: Query, from: nat)
    requires h != []
    ensures var n, init := |h| - 1, First(h[..|h| - 1], q, from);
            First(h, q, from) == if init.Some? then init else if from <= n && Meets(h[n], q) then Some(n) else None
  {
    var n := |h| - 1;
    assert forall j :: 0 <= j < n ==> h[..n][j] == h[j];
  }

  /** What became of the start. */
  datatype Course = NotStarted | ClosedFirst | Awaiting | BoundTo(port: nat) | BindFailed

  /**
   The first start counts, if no close came before it. It fails at once if the server is bound or refuses to
   listen; otherwise the first answer after it decides.
   */
  function CourseOf(h: seq<Act>): Course {
    var s, c := First(h, Starts, 0), First(h, Closes, 0);
    if s.None? then NotStarted
    else if c.Some? && c.value < s.value then ClosedFirst
    else if !h[s.value].unbound || h[s.value].listenThrows then BindFailed
    else
      var a := First(h, Answers, s.value + 1);
      if a.None? then Awaiting
      else match h[a.value].turn
           case Listening(addressOk, port) => if addressOk then BoundTo(port) else BindFailed
           case _ => BindFailed
  }

  predicate WasClosed(h: seq<Act>) {
    First(h, Closes, 0).Some?
  }

  /** What a listener shows of its history. */
  predicate Tells(c: Runtime, course: Course, closed: bool) {
    && c.closingRequested == closed
    && match course
       case NotStarted =>
         c.startPromise == Unset && c.binds == 0 && c.phase == if closed then Stopped else New
       case ClosedFirst => c.startPromise == Resolved && c.binds == 0 && c.phase == Stopped && closed
       case Awaiting =>
         && c.startPromise == Pending && c.startAt == Binding && c.binds == 1
         && c.phase == if closed then Draining else Starting
       case BoundTo(port) =>
         && c.startPromise == Resolved && c.binds == 1
         && (if closed then c.phase == Draining || c.phase == Stopped else c.phase == Ready && c.port == Some(port))
       case BindFailed =>
         && (c.startPromise == Pending || (c.startPromise == Rejected && c.release.Done?))
         && (c.phase == Failed || (closed && c.phase == Stopped))
  }

  /** How the course goes on with one more act. */
  function CourseNext(course: Course, closed: bool, a: Act): Course {
    match a
    case CallStart(unbound, listenThrows) =>
      if course != NotStarted then course
      else if closed then ClosedFirst
      else if !unbound || listenThrows then BindFailed
      else Awaiting
    case CallClose => course
    case Happens(turn) =>
      if course != Awaiting then course
      else match turn
           case Listening(addressOk, port) => if addressOk then BoundTo(port) else BindFailed
           case BindError => BindFailed
           case _ => course
  }

  lemma CourseAppended(h: seq<Act>)
    requires h != []
    ensures var init := h[..|h| - 1];
            && CourseOf(h) == CourseNext(CourseOf(init), WasClosed(init), h[|h| - 1])
            && WasClosed(h) == (WasClosed(init) || h[|h| - 1].CallClose?)
  {
    hide First;
    var n := |h| - 1;
    var init := h[..n];
    FirstAppended(h, Starts, 0);
    FirstAppended(h, Closes, 0);
    var s := First(h, Starts, 0);
    if s.Some? {
      FirstAppended(h, Answers, s.value + 1);
      assert s.value < n ==> init[s.value] == h[s.value];
      var a := First(init, Answers, s.value + 1);
      assert a.Some? ==> init[a.value] == h[a.value];
    }
  }

  lemma ActTells(c: Runtime, course: Course, closed: bool, a: Act)
    requires Inv(c) && Tells(c, course, closed)
    ensures Tells(Live(c, a), CourseNext(course, closed, a), closed || a.CallClose?)
  {
  }

  /** A listener shows what its history says. */
  lemma {:induction false} ListenerTells(h: seq<Act>)
    ensures Tells(Lived(h), CourseOf(h), WasClosed(h))
  {
    hide Inv, Live, CourseOf, CourseNext, Tells, WasClosed;
    if h == [] {
      NothingTold();
    } else {
      var c := Lived(h[..|h| - 1]);
      ListenerTells(h[..|h| - 1]);
      LivedOk(h[..|h| - 1]);
      CourseAppended(h);
      ActTells(c, CourseOf(h[..|h| - 1]), WasClosed(h[..|h| - 1]), h[|h| - 1]);
    }
  }

  lemma NothingTold()
    ensures Tells(Created(), CourseOf([]), WasClosed([]))
  {
  }

  /**
   A listener is ready exactly if its first start was called while the server was unbound and took `listen`,
   the first answer after it was that it listens at the promised address, and no close was called. Its port is
   the one of that answer.
   */
  ghost predicate BecameReady(h: seq<Act>, s: nat, a: nat, port: nat) {
    && s < a < |h| && h[s] == CallStart(true, false) && h[a] == Happens(Listening(true, port))
    && (forall j :: 0 <= j < s ==> !h[j].CallStart?)
    && (forall j :: s < j < a ==> !Meets(h[j], Answers))
    && (forall j :: 0 <= j < |h| ==> !h[j].CallClose?)
  }

  lemma ReadyExactly(h: seq<Act>)
    ensures Lived(h).phase == Ready <==> exists s, a, port :: BecameReady(h, s, a, port)
    ensures forall s, a, port: nat :: BecameReady(h, s, a, port) ==> Lived(h).port == Some(port)
  {
    hide Lived, First;
    ListenerTells(h);
    var s := First(h, Starts, 0);
    if Lived(h).phase == Ready {
      var a := First(h, Answers, s.value + 1);
      assert BecameReady(h, s.value, a.value, h[a.value].turn.port);
    }
    forall s0, a, port: nat | BecameReady(h, s0, a, port) ensures Lived(h).phase == Ready
                                                                  && Lived(h).port == Some(port) {
      CourseOfReady(h, s0, a, port);
    }
  }

  lemma CourseOfReady(h: seq<Act>, s: nat, a: nat, port: nat)
    requires BecameReady(h, s, a, port)
    ensures CourseOf(h) == BoundTo(port) && !WasClosed(h)
  {
    hide First;
    assert First(h, Starts, 0) == Some(s);
    assert First(h, Closes, 0) == None;
    assert First(h, Answers, s + 1) == Some(a);
  }

  // What is open.

  /** The last that was heard of it is that it came. */
  ghost predicate CameLast<T>(h: seq<T>, came: T, gone: T) {
    exists i :: 0 <= i < |h| && h[i] == came && forall j :: i < j < |h| ==> h[j] != gone
  }

  ghost predicate IsOpen(h: seq<Act>, came: Turn, gone: Turn) {
    CameLast(h, Happens(came), Happens(gone))
  }

  lemma CameAppended<T>(h: seq<T>, came: T, gone: T)
    requires h != [] && came != gone
    ensures var x := h[|h| - 1];
            CameLast(h, came, gone) <==> x == came || (x != gone && CameLast(h[..|h| - 1], came, gone))
  {
    var n := |h| - 1;
    var init := h[..n];
    assert h[n] == came ==> CameLast(h, came, gone);
    if h[n] != came && CameLast(h, came, gone) {
      var i :| 0 <= i < |h| && h[i] == came && forall j :: i < j < |h| ==> h[j] != gone;
      assert init[i] == h[i];
    }
    if h[n] != gone && CameLast(init, came, gone) {
      var i :| 0 <= i < n && init[i] == came && forall j :: i < j < n ==> init[j] != gone;
      assert h[i] == init[i] && forall j :: i < j < n ==> h[j] == init[j];
    }
  }

  function ConnectionsAfter(s: set<nat>, a: Act): set<nat> {
    if a.Happens? && a.turn.Connected? then s + {a.turn.id}
    else if a.Happens? && a.turn.ConnectionGone? then s - {a.turn.id}
    else s
  }

  function RequestsAfter(s: set<nat>, a: Act): set<nat> {
    if a.Happens? && a.turn.Requested? then s + {a.turn.id}
    else if a.Happens? && a.turn.RequestGone? then s - {a.turn.id}
    else s
  }

  function ResponsesAfter(s: set<nat>, a: Act): set<nat> {
    if a.Happens? && a.turn.Requested? then s + {a.turn.id}
    else if a.Happens? && a.turn.ResponseGone? then s - {a.turn.id}
    else s
  }

  /** Calls and turns up to the last change the sets so, and the last one empties them. */
  ghost predicate Tracks(c: Runtime, a: Act, d: Runtime) {
    if d.phase == Stopped then Drained(d)
    else
      && c.phase != Stopped && d.connections == ConnectionsAfter(c.connections, a)
      && d.requests == RequestsAfter(c.requests, a) && d.responses == ResponsesAfter(c.responses, a)
  }

  lemma CallTracks(c: Runtime, a: Act)
    requires Inv(c) && (c.phase == Stopped ==> Drained(c)) && !a.Happens?
    ensures Tracks(c, a, Live(c, a))
  {
  }

  lemma TurnTracks(c: Runtime, t: Turn)
    requires Inv(c) && (c.phase == Stopped ==> Drained(c))
    ensures Tracks(c, Happens(t), Next(c, t))
  {
  }

  lemma ActTracks(c: Runtime, a: Act)
    requires Inv(c) && (c.phase == Stopped ==> Drained(c))
    ensures Tracks(c, a, Live(c, a))
  {
    hide Inv, Tracks, Next, R.Start, Close;
    if a.Happens? {
      TurnTracks(c, a.turn);
    } else {
      CallTracks(c, a);
    }
  }

  /** The connections that a listener tracks until it is stopped are those that are open. */
  lemma {:induction false} ConnectionsExactly(h: seq<Act>, id: nat)
    ensures var c := Lived(h);
            if c.phase == Stopped then Drained(c) else id in c.connections
                                                       <==> IsOpen(h, Connected(id), ConnectionGone(id))
  {
    hide Inv, CameLast, Live;
    if h == [] {
      NothingCame<Act>(Happens(Connected(id)), Happens(ConnectionGone(id)));
    } else {
      ConnectionsExactly(h[..|h| - 1], id);
      LivedOk(h[..|h| - 1]);
      ActTracks(Lived(h[..|h| - 1]), h[|h| - 1]);
      CameAppended(h, Happens(Connected(id)), Happens(ConnectionGone(id)));
    }
  }

  /** And so are the requests. */
  lemma {:induction false} RequestsExactly(h: seq<Act>, id: nat)
    ensures var c := Lived(h);
            if c.phase == Stopped then Drained(c) else id in c.requests <==> IsOpen(h, Requested(id), RequestGone(id))
  {
    hide Inv, CameLast, Live;
    if h == [] {
      NothingCame<Act>(Happens(Requested(id)), Happens(RequestGone(id)));
    } else {
      RequestsExactly(h[..|h| - 1], id);
      LivedOk(h[..|h| - 1]);
      ActTracks(Lived(h[..|h| - 1]), h[|h| - 1]);
      CameAppended(h, Happens(Requested(id)), Happens(RequestGone(id)));
    }
  }

  /** And the responses. */
  lemma {:induction false} ResponsesExactly(h: seq<Act>, id: nat)
    ensures var c := Lived(h);
            if c.phase == Stopped then Drained(c) else id in c.responses <==> IsOpen(h, Requested(id), ResponseGone(id))
  {
    hide Inv, CameLast, Live;
    if h == [] {
      NothingCame<Act>(Happens(Requested(id)), Happens(ResponseGone(id)));
    } else {
      ResponsesExactly(h[..|h| - 1], id);
      LivedOk(h[..|h| - 1]);
      ActTracks(Lived(h[..|h| - 1]), h[|h| - 1]);
      CameAppended(h, Happens(Requested(id)), Happens(ResponseGone(id)));
    }
  }

  lemma NothingCame<T>(came: T, gone: T)
    ensures !CameLast([], came, gone)
  {
  }

  // Why a listener that was bound has stopped.

  ghost predicate DeadlinePassed(h: seq<Act>) {
    exists i :: 0 <= i < |h| && h[i] == Happens(DrainTimeout) && Lived(h[..i]).closingRequested
  }

  ghost predicate ServerHasClosed(h: seq<Act>) {
    exists i :: 0 <= i < |h| && h[i] == Happens(ServerClosed) && Lived(h[..i]).closingRequested
  }

  /** Since the close was asked for there was a moment with nothing open. */
  ghost predicate WasEmpty(h: seq<Act>) {
    exists i :: 0 <= i <= |h| && Lived(h[..i]).closingRequested && Drained(Lived(h[..i]))
  }

  lemma Remains(h: seq<Act>)
    requires h != []
    ensures DeadlinePassed(h[..|h| - 1]) ==> DeadlinePassed(h)
    ensures ServerHasClosed(h[..|h| - 1]) ==> ServerHasClosed(h)
    ensures WasEmpty(h[..|h| - 1]) ==> WasEmpty(h)
  {
    hide Lived;
    var init := h[..|h| - 1];
    assert forall i :: 0 <= i <= |init| ==> init[..i] == h[..i];
    assert forall i :: 0 <= i < |init| ==> init[i] == h[i];
  }

  lemma Noticed(h: seq<Act>)
    requires h != []
    ensures var c, a := Lived(h[..|h| - 1]), h[|h| - 1];
            && (a == Happens(DrainTimeout) && c.closingRequested ==> DeadlinePassed(h))
            && (a == Happens(ServerClosed) && c.closingRequested ==> ServerHasClosed(h))
    ensures Lived(h).closingRequested && Drained(Lived(h)) ==> WasEmpty(h)
  {
    hide Lived;
    assert h[..|h|] == h;
  }

  ghost predicate DrainTold(h: seq<Act>) {
    var c := Lived(h);
    && (c.closeAt.Closing? ==>
          && (c.closeAt.serverClosed ==> ServerHasClosed(h)) && (c.closeAt.drain == Forced ==> DeadlinePassed(h))
          && (c.closeAt.drain == Graceful ==> WasEmpty(h)))
    && (c.phase == Stopped && c.startPromise == Resolved && c.binds == 1 ==>
          DeadlinePassed(h) || (ServerHasClosed(h) && WasEmpty(h)))
  }

  lemma DrainTurn(c: Runtime, a: Act)
    requires Inv(c)
    ensures var d := Live(c, a);
            && (d.closeAt.Closing? ==>
                  && c.phase != Stopped
                  && (d.closeAt.serverClosed ==>
                        (c.closeAt.Closing? && c.closeAt.serverClosed)
                        || (a == Happens(ServerClosed) && c.closingRequested))
                  && (d.closeAt.drain == Forced ==>
                        (c.closeAt.Closing? && c.closeAt.drain == Forced)
                        || (a == Happens(DrainTimeout) && c.closingRequested))
                  && (d.closeAt.drain == Graceful ==>
                        (c.closeAt.Closing? && c.closeAt.drain == Graceful) || (d.closingRequested && Drained(d))))
            && (d.phase == Stopped && d.startPromise == Resolved && d.binds == 1 ==>
                  || (c.phase == Stopped && c.startPromise == Resolved && c.binds == 1)
                  || (c.closeAt.Closing? && c.closeAt.drain == Forced)
                  || (c.closeAt.Closing? && c.closeAt.drain == Graceful && c.closeAt.serverClosed))
  {
  }

  /**
   A listener that was bound has stopped only if the deadline of its drain passed, or the server had closed
   and nothing was open at some moment after the close was asked for.
   */
  lemma {:induction false} StopsOnlyDrained(h: seq<Act>)
    ensures DrainTold(h)
  {
    hide Inv, Live, DeadlinePassed, ServerHasClosed, WasEmpty;
    if h != [] {
      StopsOnlyDrained(h[..|h| - 1]);
      LivedOk(h[..|h| - 1]);
      DrainTurn(Lived(h[..|h| - 1]), h[|h| - 1]);
      Remains(h);
      Noticed(h);
    }
  }

  /** A drain waits only while something is open. */
  predicate WaitsForTraffic(c: Runtime) {
    c.closeAt.Closing? && c.closeAt.drain == Waiting ==> !Drained(c)
  }

  lemma ActWaits(c: Runtime, a: Act)
    requires Inv(c) && WaitsForTraffic(c)
    ensures WaitsForTraffic(Live(c, a))
  {
  }

  /** Whatever was called and happened: the last of the traffic to go ends the wait of a drain. */
  lemma {:induction false} DrainWaits(h: seq<Act>)
    ensures WaitsForTraffic(Lived(h))
  {
    hide Inv, Live;
    if h != [] {
      DrainWaits(h[..|h| - 1]);
      LivedOk(h[..|h| - 1]);
      ActWaits(Lived(h[..|h| - 1]), h[|h| - 1]);
    }
  }
}
