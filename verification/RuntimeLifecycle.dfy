/**
 The lifecycle of one listener: start, close, and the turns of the event loop between them. Every
 function is one synchronous turn; a turn that the awaited promise or event does not allow yet
 changes nothing.
 */
module RuntimeLifecycle {
  import opened Results

  datatype Phase = New | Starting | Ready | Draining | Failed | Stopped

  /** The order in which phases may follow each other. */
  function Rank(p: Phase): nat {
    match p case New => 0 case Starting => 1 case Ready => 2 case Draining => 3 case Failed => 4 case Stopped => 5
  }

  datatype Promise = Unset | Pending | Resolved | Rejected

  predicate Settled(p: Promise) {
    p == Resolved || p == Rejected
  }

  /** The release callback: not asked for, due in a later turn, running, settled. */
  datatype Release = Unasked | Due | Running | Done(ok: bool)

  /** Where the start is: waiting for `listening` or `error`, for an unwanted listener to stop, for the release. */
  datatype StartAt = StartIdle | Binding | Unbinding | StartReleasing | StartOver

  datatype Drain = Waiting | Graceful | Forced

  /** Where the close is: waiting for the start, for server and drain, for the release. */
  datatype CloseAt = CloseIdle | AwaitingStart | Closing(serverClosed: bool, drain: Drain) | CloseReleasing | CloseOver

  datatype Runtime = Runtime(
    phase: Phase, port: Option<nat>, closingRequested: bool,
    startPromise: Promise, startSettled: bool, startAt: StartAt,
    closePromise: Promise, closeAt: CloseAt,
    release: Release, releases: nat, binds: nat,
    connections: set<nat>, requests: set<nat>, responses: set<nat>)

  function Created(): Runtime {
    Runtime(New, None, false, Unset, false, StartIdle, Unset, CloseIdle, Unasked, 0, 0, {}, {}, {})
  }

  predicate Drained(c: Runtime) {
    c.connections == {} && c.requests == {} && c.responses == {}
  }

  function InvokeRelease(c: Runtime): Runtime {
    if c.release == Unasked then c.(release := Due) else c
  }

  function FailBind(c: Runtime): Runtime {
    c.(phase := Failed, port := None, startAt := Unbinding)
  }

  /** `start()`. Whether the server is unbound and whether `listen` throws is up to the server. */
  function Start(c: Runtime, unbound: bool, listenThrows: bool): Runtime {
    if c.startPromise != Unset then c
    else if c.phase == Stopped then c.(startPromise := Resolved, startSettled := true, startAt := StartOver)
    else if c.phase != New then c
    else if !unbound then FailBind(c.(startPromise := Pending))
    else
      var s := c.(phase := Starting, startPromise := Pending, startAt := Binding, binds := c.binds + 1);
      if listenThrows then FailBind(s) else s
  }

  /** The last assignments of every close, before its release. */
  function Stop(c: Runtime): Runtime {
    InvokeRelease(c.(phase := Stopped, port := None, connections := {}, requests := {}, responses := {},
                  closeAt := CloseReleasing))
  }

  /** A close goes on when no start is pending. */
  function StopOrDrain(c: Runtime): Runtime {
    if c.phase == Ready || c.phase == Draining then
      c.(phase := Draining, port := None, closeAt := Closing(false, if Drained(c) then Graceful else Waiting))
    else Stop(c)
  }

  /** `close()`. */
  function Close(c: Runtime): Runtime {
    if c.closePromise != Unset then c
    else
      var s := c.(closingRequested := true, closePromise := Pending,
               phase := if c.phase == Starting || c.phase == Ready then Draining else c.phase);
      if s.phase == Stopped || s.phase == New then Stop(s)
      else if s.startPromise != Unset && !s.startSettled then s.(closeAt := AwaitingStart)
      else StopOrDrain(s)
  }

  datatype Turn =
    | Listening(addressOk: bool, port: nat) | BindError | ListenerStopped | StartReleased
    | CloseAfterStart | ServerClosed | DrainTimeout | CloseDrained | CloseReleased
    | ReleaseRuns | ReleaseSettles(ok: bool)
    | Connected(id: nat) | Requested(id: nat)
    | ConnectionGone(id: nat) | RequestGone(id: nat) | ResponseGone(id: nat)

  predicate DrainOver(c: Runtime) {
    c.closeAt.Closing? && (c.closeAt.drain == Forced || (c.closeAt.drain == Graceful && c.closeAt.serverClosed))
  }

  /** The turns that wait for something that has happened. */
  predicate Enabled(c: Runtime, t: Turn) {
    match t
    case Listening(_, _) => c.startAt == Binding
    case BindError => c.startAt == Binding
    case ListenerStopped => c.startAt == Unbinding
    case StartReleased => c.startAt == StartReleasing && c.release.Done?
    case CloseAfterStart => c.closeAt == AwaitingStart && Settled(c.startPromise)
    case ServerClosed => c.closeAt.Closing? && !c.closeAt.serverClosed
    case DrainTimeout => c.closeAt.Closing? && c.closeAt.drain == Waiting
    case CloseDrained => DrainOver(c)
    case CloseReleased => c.closeAt == CloseReleasing && c.release.Done?
    case ReleaseRuns => c.release == Due
    case ReleaseSettles(_) => c.release == Running
    case Connected(_) => c.phase != Stopped
    case Requested(_) => c.phase != Stopped
    case ConnectionGone(id) => id in c.connections
    case RequestGone(id) => id in c.requests
    case ResponseGone(id) => id in c.responses
  }

  /** `maybeResolveDrain`. */
  function ResolveDrain(c: Runtime): Runtime {
    if c.closeAt.Closing? && c.closeAt.drain == Waiting && Drained(c) then c.(closeAt := c.closeAt.(drain := Graceful))
    else c
  }

  function Next(c: Runtime, t: Turn): Runtime {
    if !Enabled(c, t) then c
    else
      match t
      case Listening(addressOk, port) =>
        if !addressOk then FailBind(c)
        else c.(startSettled := true, startPromise := Resolved, startAt := StartOver, port := Some(port),
             phase := if c.closingRequested then c.phase else Ready)
      case BindError => FailBind(c)
      case ListenerStopped => InvokeRelease(c.(startAt := StartReleasing))
      case StartReleased => c.(startSettled := true, startPromise := Rejected, startAt := StartOver)
      case CloseAfterStart => StopOrDrain(c)
      case ServerClosed => c.(closeAt := c.closeAt.(serverClosed := true))
      case DrainTimeout => c.(closeAt := c.closeAt.(drain := Forced))
      case CloseDrained => Stop(c)
      case CloseReleased => c.(closePromise := Resolved, closeAt := CloseOver)
      case ReleaseRuns => c.(release := Running, releases := c.releases + 1)
      case ReleaseSettles(ok) => c.(release := Done(ok))
      case Connected(id) => c.(connections := c.connections + {id})
      case Requested(id) => c.(requests := c.requests + {id}, responses := c.responses + {id})
      case ConnectionGone(id) => ResolveDrain(c.(connections := c.connections - {id}))
      case RequestGone(id) => ResolveDrain(c.(requests := c.requests - {id}))
      case ResponseGone(id) => ResolveDrain(c.(responses := c.responses - {id}))
  }

  /** What every reachable state of a listener satisfies. */
  ghost predicate Inv(c: Runtime) {
    && c.releases == (if c.release == Running || c.release.Done? then 1 else 0)
    && c.binds <= 1 && (c.binds == 1 ==> c.startPromise != Unset)
    && (c.startAt == StartIdle <==> c.startPromise == Unset)
    && (c.startAt == StartOver <==> Settled(c.startPromise)) && (Settled(c.startPromise) <==> c.startSettled)
    && (c.closingRequested <==> c.closeAt != CloseIdle)
    && (c.closePromise == Unset <==> c.closeAt == CloseIdle)
    && (c.closePromise == Resolved <==> c.closeAt == CloseOver) && c.closePromise != Rejected
    && (c.phase == Stopped <==> c.closeAt == CloseReleasing || c.closeAt == CloseOver)
    && (c.closeAt == CloseReleasing ==> c.release != Unasked) && (c.closeAt == CloseOver ==> c.release.Done?)
    && (c.closeAt.Closing? ==> c.phase == Draining && c.startPromise == Resolved)
    && (c.closeAt == AwaitingStart ==> c.startPromise != Unset && (c.phase == Draining || c.phase == Failed))
    && (c.startAt == StartReleasing ==> c.release != Unasked)
    && (c.phase == New <==> c.startPromise == Unset && !c.closingRequested)
    && (c.startPromise == Unset && c.closingRequested ==> c.phase == Stopped)
    && (c.phase == Starting ==> c.startAt == Binding)
    && (c.startAt == Binding ==> c.phase == Starting || c.phase == Draining)
    && (c.startAt == Unbinding || c.startAt == StartReleasing ==> c.phase == Failed)
    && (c.startPromise == Rejected && c.closeAt != CloseReleasing && c.closeAt != CloseOver ==> c.phase == Failed)
    && (c.phase == Ready <==> c.port.Some? && !c.closingRequested)
    && (c.phase == Ready ==> c.startPromise == Resolved)
    && (c.phase == Draining ==> c.closingRequested && (c.startAt == Binding || c.startPromise == Resolved))
    && (c.startPromise == Resolved && c.phase != Stopped ==> c.phase == Ready || c.phase == Draining)
  }

  lemma CreatedOk()
    ensures Inv(Created())
  {
  }

  /**
   Calls and turns keep the invariant, never move the phase backwards, and bind at most once, never once a
   close was asked for.
   */
  ghost predicate Moves(c: Runtime, d: Runtime) {
    && Inv(d)
    && Rank(c.phase) <= Rank(d.phase)
    && c.releases <= d.releases
    && (c.closingRequested ==> d.closingRequested && d.binds == c.binds)
  }

  lemma StartMoves(c: Runtime, unbound: bool, listenThrows: bool)
    requires Inv(c)
    ensures Moves(c, Start(c, unbound, listenThrows))
  {
  }

  lemma CloseMoves(c: Runtime)
    requires Inv(c)
    ensures Moves(c, Close(c)) && Close(c).closingRequested
  {
  }

  predicate IsStartTurn(t: Turn) {
    t.Listening? || t.BindError? || t.ListenerStopped? || t.StartReleased?
  }

  predicate IsCloseTurn(t: Turn) {
    t.CloseAfterStart? || t.ServerClosed? || t.DrainTimeout? || t.CloseDrained? || t.CloseReleased?
  }

  lemma StartTurnMoves(c: Runtime, t: Turn)
    requires Inv(c) && IsStartTurn(t)
    ensures Moves(c, Next(c, t)) && Next(c, t).binds == c.binds
  {
  }

  lemma CloseTurnMoves(c: Runtime, t: Turn)
    requires Inv(c) && IsCloseTurn(t)
    ensures Moves(c, Next(c, t)) && Next(c, t).binds == c.binds
  {
  }

  lemma ReleaseTurnMoves(c: Runtime, t: Turn)
    requires Inv(c) && (t.ReleaseRuns? || t.ReleaseSettles?)
    ensures Moves(c, Next(c, t)) && Next(c, t).binds == c.binds
  {
  }

  lemma TrafficMoves(c: Runtime, t: Turn)
    requires Inv(c) && !IsProgress(t)
    ensures Moves(c, Next(c, t)) && Next(c, t).binds == c.binds
  {
    hide Enabled;
    if Enabled(c, t) {
      DrainResolvedMoves(c, ResolveDrain(c.(connections := Next(c, t).connections, requests := Next(c, t).requests,
                                         responses := Next(c, t).responses)));
    }
  }

  /** Forgetting connections, requests and responses, and resolving a drain, touches nothing else. */
  lemma DrainResolvedMoves(c: Runtime, d: Runtime)
    requires Inv(c)
    requires d == c.(connections := d.connections, requests := d.requests, responses := d.responses,
                  closeAt := d.closeAt)
    requires d.closeAt == c.closeAt || (c.closeAt.Closing? && d.closeAt == c.closeAt.(drain := Graceful))
    ensures Moves(c, d)
  {
  }

  lemma TurnMoves(c: Runtime, t: Turn)
    requires Inv(c)
    ensures Moves(c, Next(c, t)) && Next(c, t).binds == c.binds
  {
    hide Inv, Moves, Next;
    if IsStartTurn(t) {
      StartTurnMoves(c, t);
    } else if IsCloseTurn(t) {
      CloseTurnMoves(c, t);
    } else if t.ReleaseRuns? || t.ReleaseSettles? {
      ReleaseTurnMoves(c, t);
    } else {
      TrafficMoves(c, t);
    }
  }

  /** A close that was asked for and is not over waits for a turn that can happen: nothing is stuck. */
  lemma CloseProgress(c: Runtime) returns (t: Turn)
    requires Inv(c) && c.closingRequested && c.closeAt != CloseOver
    ensures Enabled(c, t) && IsProgress(t)
  {
    match c.closeAt
    case AwaitingStart =>
      t := if c.startAt == Binding then Listening(true, 0)
      else if c.startAt == Unbinding then ListenerStopped
      else if c.startAt == StartReleasing then AfterRelease(c, StartReleased)
      else CloseAfterStart;
    case Closing(serverClosed, drain) =>
      t := if drain == Waiting then DrainTimeout else if drain == Graceful && !serverClosed then ServerClosed
      else CloseDrained;
    case CloseReleasing => t := AfterRelease(c, CloseReleased);
  }

  /** So does a start that is pending. */
  lemma StartProgress(c: Runtime) returns (t: Turn)
    requires Inv(c) && c.startPromise == Pending
    ensures Enabled(c, t) && IsProgress(t)
  {
    t := if c.startAt == Binding then Listening(true, 0)
    else if c.startAt == Unbinding then ListenerStopped
    else AfterRelease(c, StartReleased);
  }

  function AfterRelease(c: Runtime, t: Turn): Turn {
    if c.release == Due then ReleaseRuns else if c.release == Running then ReleaseSettles(true) else t
  }

  /** The turns that a close waits for; the others are traffic. */
  predicate IsProgress(t: Turn) {
    !(t.Connected? || t.Requested? || t.ConnectionGone? || t.RequestGone? || t.ResponseGone?)
  }

  /** An upper bound on the turns still to come until the start, the close and the release are over. */
  function Remaining(c: Runtime): nat {
    (match c.startAt
     case StartIdle => 4
     case Binding => 3
     case Unbinding => 2
     case StartReleasing => 1
     case StartOver => 0)
    + (match c.closeAt
       case CloseIdle => 7
       case AwaitingStart => 6
       case Closing(serverClosed, drain) => 2 + (if serverClosed then 0 else 1) + (if drain == Waiting then 1 else 0)
       case CloseReleasing => 1
       case CloseOver => 0)
    + (match c.release case Unasked => 3 case Due => 2 case Running => 1 case Done(_) => 0)
  }

  /** Every turn that a close waits for brings its end nearer, and traffic does not put it off. */
  lemma TurnsEnd(c: Runtime, t: Turn)
    requires Inv(c)
    ensures Remaining(Next(c, t)) <= Remaining(c)
    ensures Enabled(c, t) && IsProgress(t) ==> Remaining(Next(c, t)) < Remaining(c)
  {
  }

  /** So do the calls that start and close it. */
  lemma CallsEnd(c: Runtime, unbound: bool, listenThrows: bool)
    requires Inv(c)
    ensures Remaining(Close(c)) <= Remaining(c)
    ensures Remaining(Start(c, unbound, listenThrows)) <= Remaining(c)
  {
  }

  predicate DrainedGracefully(c: Runtime) {
    c.closeAt.Closing? && c.closeAt.drain == Graceful
  }

  /**
   A drain becomes graceful, by a turn or by the call of `close` itself, only when no connection, request
   or response is open.
   */
  lemma GracefulMeansDrained(c: Runtime, t: Turn)
    requires Inv(c) && !DrainedGracefully(c)
    ensures DrainedGracefully(Next(c, t)) ==> Drained(Next(c, t))
    ensures DrainedGracefully(Close(c)) ==> Drained(Close(c))
  {
  }

  /** The closure of `createStagingCaseRuntimeLifecycle`: its variables, and one method for every turn. */
  class StagingCaseRuntimeLifecycle {
    var phase: Phase
    var boundPort: Option<nat>
    var closingRequested: bool
    var startPromise: Promise
    var startSettled: bool
    var startAt: StartAt
    var closePromise: Promise
    var closeAt: CloseAt
    var releasePromise: Release
    var connections: set<nat>
    var requests: set<nat>
    var responses: set<nat>
    var releases: nat
    var binds: nat

    function View(): Runtime
      reads this
    {
      Runtime(phase, boundPort, closingRequested, startPromise, startSettled, startAt, closePromise, closeAt,
              releasePromise, releases, binds, connections, requests, responses)
    }

    constructor ()
      ensures View() == Created()
    {
      phase, boundPort, closingRequested := New, None, false;
      startPromise, startSettled, startAt := Unset, false, StartIdle;
      closePromise, closeAt, releasePromise := Unset, CloseIdle, Unasked;
      connections, requests, responses, releases, binds := {}, {}, {}, 0, 0;
    }

    method InvokeReleaseOnce()
      modifies this
      ensures View() == InvokeRelease(old(View()))
    {
      if releasePromise == Unasked {
        releasePromise := Due;
      }
    }

    method FailTheBind()
      modifies this
      ensures View() == FailBind(old(View()))
    {
      phase := Failed;
      boundPort := None;
      startAt := Unbinding;
    }

    method StartServer(unbound: bool, listenThrows: bool)
      modifies this
      ensures View() == Start(old(View()), unbound, listenThrows)
    {
      if startPromise != Unset {
        return;
      }
      if phase == Stopped {
        startPromise, startSettled, startAt := Resolved, true, StartOver;
        return;
      }
      if phase != New {
        return;
      }
      startPromise := Pending;
      if !unbound {
        FailTheBind();
        return;
      }
      phase := Starting;
      startAt := Binding;
      binds := binds + 1;
      if listenThrows {
        FailTheBind();
      }
    }

    method RemoveTracking()
      modifies this
      ensures View() == old(View()).(connections := {}, requests := {}, responses := {})
    {
      connections, requests, responses := {}, {}, {};
    }

    method FinishStopped()
      modifies this
      ensures View() == Stop(old(View()))
    {
      phase := Stopped;
      boundPort := None;
      RemoveTracking();
      InvokeReleaseOnce();
      closeAt := CloseReleasing;
    }

    method FinishClose()
      modifies this
      ensures View() == StopOrDrain(old(View()))
    {
      if phase == Ready || phase == Draining {
        phase := Draining;
        boundPort := None;
        closeAt := Closing(false, if connections == {} && requests == {} && responses == {} then Graceful else Waiting);
      } else {
        FinishStopped();
      }
    }

    method CloseServer()
      modifies this
      ensures View() == Close(old(View()))
    {
      if closePromise != Unset {
        return;
      }
      closingRequested := true;
      closePromise := Pending;
      if phase == Starting || phase == Ready {
        phase := Draining;
      }
      if phase == Stopped || phase == New {
        FinishStopped();
      } else if startPromise != Unset && !startSettled {
        closeAt := AwaitingStart;
      } else {
        FinishClose();
      }
    }

    method OnListening(addressOk: bool, port: nat)
      requires startAt == Binding
      modifies this
      ensures View() == Next(old(View()), Listening(addressOk, port))
    {
      if !addressOk {
        FailTheBind();
        return;
      }
      startSettled := true;
      boundPort := Some(port);
      if !closingRequested {
        phase := Ready;
      }
      startPromise, startAt := Resolved, StartOver;
    }

    method MaybeResolveDrain()
      modifies this
      ensures View() == ResolveDrain(old(View()))
    {
      if closeAt.Closing? && closeAt.drain == Waiting && connections == {} && requests == {} && responses == {} {
        closeAt := closeAt.(drain := Graceful);
      }
    }

    method RemoveConnection(id: nat)
      requires id in connections
      modifies this
      ensures View() == Next(old(View()), ConnectionGone(id))
    {
      connections := connections - {id};
      MaybeResolveDrain();
    }

    method RemoveRequest(id: nat)
      requires id in requests
      modifies this
      ensures View() == Next(old(View()), RequestGone(id))
    {
      requests := requests - {id};
      MaybeResolveDrain();
    }

    method RemoveResponse(id: nat)
      requires id in responses
      modifies this
      ensures View() == Next(old(View()), ResponseGone(id))
    {
      responses := responses - {id};
      MaybeResolveDrain();
    }

    /** The turns in which an awaited promise lets a start, a close or the release go on. */
    method Continue(t: Turn)
      requires Enabled(View(), t)
      requires t.ListenerStopped? || t.StartReleased? || t.CloseAfterStart? || t.ServerClosed? || t.DrainTimeout?
               || t.CloseDrained? || t.CloseReleased? || t.ReleaseRuns? || t.ReleaseSettles?
      modifies this
      ensures View() == Next(old(View()), t)
    {
      match t {
        case ListenerStopped => InvokeReleaseOnce(); startAt := StartReleasing;
        case StartReleased => startSettled := true; startPromise, startAt := Rejected, StartOver;
        case CloseAfterStart => FinishClose();
        case ServerClosed => closeAt := closeAt.(serverClosed := true);
        case DrainTimeout => closeAt := closeAt.(drain := Forced);
        case CloseDrained => FinishStopped();
        case CloseReleased => closePromise, closeAt := Resolved, CloseOver;
        case ReleaseRuns => releasePromise := Running; releases := releases + 1;
        case ReleaseSettles(ok) => releasePromise := Done(ok);
      }
    }
  }
}
