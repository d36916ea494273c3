/**
 The lifecycle of a process with several listeners. A state is what the closure variables and the
 suspended `start` and `close` hold between two turns of the event loop; a turn is what runs from one
 `await` to the next. Any sequence of turns is an interleaving.
 */
module ProcessLifecycle {
  import opened Results
  import opened R = RuntimeLifecycle

  /** Where `start` is suspended: at child `i`, stopping child `k` after a failure, releasing after it. */
  datatype StartTask =
    | NotStarted | AwaitingChild(i: nat) | FailStopping(k: nat) | FailReleasing | StartDone(ok: bool)

  /** Where `close` is suspended. */
  datatype CloseTask =
    | NotClosing | AwaitingStartTask | CloseStopping(k: nat) | CloseReleasingTask | CloseDone(ok: bool)

  datatype Process = Process(
    phase: Phase, closingRequested: bool, startTask: StartTask, closeTask: CloseTask,
    release: Release, releases: nat, children: seq<Runtime>)

  /** What the environment answers in a turn of the start: the guard's verdict, and how the server takes `listen`. */
  datatype Bind = Bind(guardOk: bool, unbound: bool, listenThrows: bool)

  datatype ProcessTurn =
    | CallStart(bind: Bind) | CallClose
    | ChildStarted(bind: Bind) | FailedChildStopped | FailedReleased
    | StartOverForClose | ClosedChildStopped | ClosedReleased
    | ProcessReleaseRuns | ProcessReleaseSettles(ok: bool)
    | ChildTurn(child: nat, turn: Turn)

  function Initial(n: nat): Process {
    Process(New, false, NotStarted, NotClosing, Unasked, 0, seq(n, i => Created()))
  }

  /** `startPromise` has been assigned; it has settled. */
  predicate Started(p: Process) {
    p.startTask != NotStarted
  }

  predicate StartSettled(p: Process) {
    p.startTask.StartDone?
  }

  function AskRelease(p: Process): Process {
    if p.release == Unasked then p.(release := Due) else p
  }

  /** `children[k].lifecycle.close()`. */
  function CloseChild(p: Process, k: nat): Process
    requires k < |p.children|
  {
    p.(children := p.children[k := Close(p.children[k])])
  }

  /** The failure path of `start`: stop the children, last first. */
  function Failing(p: Process): Process
    requires |p.children| > 0
  {
    CloseChild(p.(phase := Failed, startTask := FailStopping(|p.children| - 1)), |p.children| - 1)
  }

  /** The loop of `start` at child `i`, up to its next `await`. */
  function StartFrom(p: Process, i: nat, b: Bind): Process
    requires |p.children| > 0
  {
    if i >= |p.children| then
      p.(phase := if p.closingRequested then p.phase else Ready, startTask := StartDone(true))
    else if p.closingRequested then p.(startTask := StartDone(true))
    else if !b.guardOk then Failing(p)
    else p.(children := p.children[i := R.Start(p.children[i], b.unbound, b.listenThrows)],
         startTask := AwaitingChild(i))
  }

  function BeginStopping(p: Process): Process
    requires |p.children| > 0
  {
    CloseChild(p.(closeTask := CloseStopping(|p.children| - 1)), |p.children| - 1)
  }

  predicate ChildClosed(p: Process, k: nat) {
    k < |p.children| && p.children[k].closePromise == Resolved
  }

  predicate TurnEnabled(p: Process, t: ProcessTurn) {
    match t
    case CallStart(_) => !Started(p) && p.phase == New
    case CallClose => p.closeTask == NotClosing
    case ChildStarted(_) => p.startTask.AwaitingChild? && p.startTask.i < |p.children|
                            && Settled(p.children[p.startTask.i].startPromise)
    case FailedChildStopped => p.startTask.FailStopping? && ChildClosed(p, p.startTask.k)
    case FailedReleased => p.startTask == FailReleasing && p.release.Done?
    case StartOverForClose => p.closeTask == AwaitingStartTask && StartSettled(p)
    case ClosedChildStopped => p.closeTask.CloseStopping? && ChildClosed(p, p.closeTask.k)
    case ClosedReleased => p.closeTask == CloseReleasingTask && p.release.Done?
    case ProcessReleaseRuns => p.release == Due
    case ProcessReleaseSettles(_) => p.release == Running
    case ChildTurn(k, turn) => k < |p.children| && Enabled(p.children[k], turn)
  }

  function Take(p: Process, t: ProcessTurn): (q: Process)
    requires |p.children| > 0
    ensures |q.children| == |p.children|
  {
    if !TurnEnabled(p, t) then
      // A start after a close that had nothing to start is the one call that still assigns a promise.
      if t.CallStart? && !Started(p) && p.phase == Stopped then p.(startTask := StartDone(true)) else p
    else
      match t
      case CallStart(b) => StartFrom(p.(phase := Starting), 0, b)
      case CallClose =>
        var q := p.(closingRequested := true,
                 phase := if p.phase == Starting || p.phase == Ready then Draining else p.phase);
        if Started(q) then q.(closeTask := AwaitingStartTask) else BeginStopping(q)
      case ChildStarted(b) =>
        var c := p.children[p.startTask.i];
        if c.startPromise == Resolved && c.phase == Ready && c.port.Some? then StartFrom(p, p.startTask.i + 1, b)
        else Failing(p)
      case FailedChildStopped =>
        var k := p.startTask.k;
        if k == 0 then AskRelease(p.(startTask := FailReleasing))
        else CloseChild(p.(startTask := FailStopping(k - 1)), k - 1)
      case FailedReleased => p.(startTask := StartDone(false))
      case StartOverForClose => BeginStopping(p)
      case ClosedChildStopped =>
        var k := p.closeTask.k;
        if k == 0 then AskRelease(p.(phase := Stopped, closeTask := CloseReleasingTask))
        else CloseChild(p.(closeTask := CloseStopping(k - 1)), k - 1)
      case ClosedReleased => p.(closeTask := CloseDone(p.release.ok))
      case ProcessReleaseRuns => p.(release := Running, releases := p.releases + 1)
      case ProcessReleaseSettles(ok) => p.(release := Done(ok))
      case ChildTurn(k, turn) => p.(children := p.children[k := Next(p.children[k], turn)])
  }

  function Turns(p: Process, ts: seq<ProcessTurn>): (q: Process)
    requires |p.children| > 0
    ensures |q.children| == |p.children|
  {
    if ts == [] then p else Take(Turns(p, ts[..|ts| - 1]), ts[|ts| - 1])
  }

  predicate AllStopped(p: Process) {
    forall k :: 0 <= k < |p.children| ==> p.children[k].closePromise == Resolved
  }

  /** Children are stopped from the last to the first, and child `k` is being closed. */
  ghost predicate StoppingAt(p: Process, k: nat) {
    && k < |p.children| && p.children[k].closePromise != Unset
    && forall j :: k < j < |p.children| ==> p.children[j].closePromise == Resolved
  }

  /** What every reachable state satisfies. */
  ghost predicate PInv(p: Process) {
    && |p.children| > 0
    && (forall k :: 0 <= k < |p.children| ==> R.Inv(p.children[k]))
    && p.releases == (if p.release == Running || p.release.Done? then 1 else 0)
    && (p.release != Unasked ==> AllStopped(p))
    && (p.closingRequested <==> p.closeTask != NotClosing)
    && StartInv(p) && CloseInv(p) && PhaseInv(p)
  }

  ghost predicate StartInv(p: Process) {
    match p.startTask
    case NotStarted => forall k :: 0 <= k < |p.children| ==> p.children[k].startPromise == Unset
    case AwaitingChild(i) =>
      && i < |p.children|
      && (forall k :: 0 <= k < |p.children| ==> !p.children[k].closingRequested)
      && (forall k :: 0 <= k < i ==> p.children[k].phase == Ready)
      && p.children[i].startPromise != Unset
      && (forall k :: i < k < |p.children| ==> p.children[k].startPromise == Unset)
    case FailStopping(k) => StoppingAt(p, k)
    case FailReleasing => AllStopped(p) && p.release != Unasked
    case StartDone(ok) => !ok ==> AllStopped(p) && p.release.Done?
  }

  ghost predicate CloseInv(p: Process) {
    match p.closeTask
    case NotClosing => (p.startTask.NotStarted? || p.startTask == StartDone(true) ==>
                          forall k :: 0 <= k < |p.children| ==> !p.children[k].closingRequested)
    case AwaitingStartTask => Started(p)
    case CloseStopping(k) => StoppingAt(p, k) && (!Started(p) || StartSettled(p))
    case CloseReleasingTask => AllStopped(p) && p.release != Unasked && (!Started(p) || StartSettled(p))
    case CloseDone(_) => AllStopped(p) && p.release.Done? && (!Started(p) || StartSettled(p))
  }

  ghost predicate PhaseInv(p: Process) {
    && (p.phase == New ==> !Started(p))
    && (p.phase == Stopped <==> p.closeTask == CloseReleasingTask || p.closeTask.CloseDone?)
    && (p.phase == Ready ==> p.startTask == StartDone(true) && !p.closingRequested
                             && forall k :: 0 <= k < |p.children| ==> p.children[k].phase == Ready)
    && (p.phase == Draining ==> p.closingRequested)
    && (p.startTask.FailStopping? || p.startTask == FailReleasing ==> p.phase == Failed)
    && (p.startTask.AwaitingChild? ==> p.phase == Starting || p.phase == Draining)
    && (p.phase == Failed ==> p.startTask.FailStopping? || p.startTask == FailReleasing
                              || p.startTask == StartDone(false))
    && (p.phase == Starting && !p.closingRequested ==> p.startTask.AwaitingChild?)
    && (p.phase == Starting && p.closingRequested ==> p.startTask == StartDone(true))
    && (p.startTask == StartDone(false) ==> p.phase == Failed || p.phase == Stopped)
  }

  lemma InitialOk(n: nat)
    requires n > 0
    ensures PInv(Initial(n))
  {
    CreatedOk();
  }

  /** A turn of a listener, by itself, starts nothing, closes nothing and stops nothing that is ready. */
  lemma ChildTurnKeeps(c: Runtime, t: Turn)
    requires R.Inv(c)
    ensures R.Inv(Next(c, t)) && Next(c, t).closingRequested == c.closingRequested && Next(c, t).binds == c.binds
    ensures Next(c, t).startPromise == Unset <==> c.startPromise == Unset
    ensures c.closePromise == Resolved ==> Next(c, t).closePromise == Resolved
    ensures Next(c, t).closePromise == Unset <==> c.closePromise == Unset
    ensures c.phase == Ready ==> Next(c, t).phase == Ready
    ensures Settled(c.startPromise) ==> Next(c, t).startPromise == c.startPromise
  {
    TurnMoves(c, t);
  }

  lemma CloseKeeps(c: Runtime)
    requires R.Inv(c)
    ensures R.Inv(Close(c)) && Close(c).closePromise != Unset && Close(c).binds == c.binds
    ensures c.closePromise == Resolved ==> Close(c) == c
    ensures Close(c).startPromise == c.startPromise
  {
    CloseMoves(c);
  }

  lemma ChildTurnOk(p: Process, k: nat, turn: Turn)
    requires PInv(p) && k < |p.children|
    ensures PInv(p.(children := p.children[k := Next(p.children[k], turn)]))
  {
    hide Next, R.Inv;
    ChildTurnKeeps(p.children[k], turn);
    forall j | 0 <= j < |p.children| ensures p.children[j].closePromise == Unset <==> !p.children[j].closingRequested {
      CloseFlag(p.children[j]);
    }
  }

  lemma CloseFlag(c: Runtime)
    requires R.Inv(c)
    ensures c.closePromise == Unset <==> !c.closingRequested
  {
  }

  lemma FailOk(p: Process)
    requires PInv(p) && p.startTask.AwaitingChild?
    ensures PInv(Failing(p))
  {
    hide R.Inv;
    CloseKeeps(p.children[|p.children| - 1]);
    assert p.release == Unasked by {
      CloseFlag(p.children[p.startTask.i]);
    }
  }

  lemma StartKeeps(c: Runtime, b: Bind)
    requires R.Inv(c)
    ensures var d := R.Start(c, b.unbound, b.listenThrows);
            && R.Inv(d) && d.closingRequested == c.closingRequested && d.closePromise == c.closePromise
            && (c.startPromise == Unset && !c.closingRequested ==> d.startPromise != Unset)
  {
  }

  lemma ChildStartedOk(p: Process, b: Bind)
    requires PInv(p) && TurnEnabled(p, ChildStarted(b))
    ensures PInv(Take(p, ChildStarted(b)))
  {
    hide R.Inv, R.Start;
    var i := p.startTask.i;
    var c := p.children[i];
    if c.startPromise == Resolved && c.phase == Ready && c.port.Some? {
      if i + 1 < |p.children| && !p.closingRequested {
        if b.guardOk {
          StartKeeps(p.children[i + 1], b);
        } else {
          FailOk(p);
        }
      }
    } else {
      FailOk(p);
    }
  }

  lemma CallStartOk(p: Process, b: Bind)
    requires PInv(p) && TurnEnabled(p, CallStart(b))
    ensures PInv(Take(p, CallStart(b)))
  {
    hide R.Inv, R.Start;
    if !p.closingRequested {
      CloseFlag(p.children[0]);
      if b.guardOk {
        StartKeeps(p.children[0], b);
      } else {
        CloseKeeps(p.children[|p.children| - 1]);
      }
    }
  }

  lemma CallCloseOk(p: Process)
    requires PInv(p) && TurnEnabled(p, CallClose)
    ensures PInv(Take(p, CallClose))
  {
    hide R.Inv;
    if !Started(p) {
      CloseFlag(p.children[0]);
      CloseKeeps(p.children[|p.children| - 1]);
    }
  }

  lemma BeginStoppingOk(p: Process)
    requires PInv(p) && TurnEnabled(p, StartOverForClose)
    ensures PInv(BeginStopping(p))
  {
    hide R.Inv;
    CloseKeeps(p.children[|p.children| - 1]);
  }

  lemma FailedChildStoppedOk(p: Process)
    requires PInv(p) && TurnEnabled(p, FailedChildStopped)
    ensures PInv(Take(p, FailedChildStopped))
  {
    hide R.Inv;
    if p.startTask.k > 0 {
      CloseKeeps(p.children[p.startTask.k - 1]);
    }
  }

  lemma ClosedChildStoppedOk(p: Process)
    requires PInv(p) && TurnEnabled(p, ClosedChildStopped)
    ensures PInv(Take(p, ClosedChildStopped))
  {
    hide R.Inv, Close;
    if p.closeTask.k > 0 {
      CloseKeeps(p.children[p.closeTask.k - 1]);
    }
  }

  /** Every turn keeps the invariant. */
  lemma TakeOk(p: Process, t: ProcessTurn)
    requires PInv(p)
    ensures PInv(Take(p, t))
  {
    hide R.Inv, R.Start, Close, Next;
    if TurnEnabled(p, t) {
      match t
      case CallStart(b) => CallStartOk(p, b);
      case CallClose => CallCloseOk(p);
      case ChildStarted(b) => ChildStartedOk(p, b);
      case FailedChildStopped => FailedChildStoppedOk(p);
      case StartOverForClose => BeginStoppingOk(p);
      case ClosedChildStopped => ClosedChildStoppedOk(p);
      case ChildTurn(k, turn) => ChildTurnOk(p, k, turn);
      case _ =>
    }
  }

  // Safety of every interleaving.

  /** No child starts to bind between two states. */
  ghost predicate NoNewBind(p: Process, q: Process) {
    |q.children| == |p.children| && forall k :: 0 <= k < |p.children| ==> q.children[k].binds == p.children[k].binds
  }

  /** A turn never moves the phase backwards and never withdraws a close. */
  lemma TakeKeepsOrder(p: Process, t: ProcessTurn)
    requires PInv(p)
    ensures Rank(p.phase) <= Rank(Take(p, t).phase)
    ensures p.closingRequested ==> Take(p, t).closingRequested
  {
    hide R.Inv, R.Start, Close, Next, StoppingAt, AllStopped;
  }

  /** Once a close was asked for, a turn begins no bind. */
  lemma TakeBindsNothing(p: Process, t: ProcessTurn)
    requires PInv(p) && p.closingRequested
    ensures NoNewBind(p, Take(p, t))
  {
    hide R.Inv, R.Start, Close, Next, StoppingAt, AllStopped, StartInv, CloseInv, PhaseInv;
    forall k | 0 <= k < |p.children| ensures Close(p.children[k]).binds == p.children[k].binds {
      CloseKeeps(p.children[k]);
    }
    if t.ChildTurn? && t.child < |p.children| {
      ChildTurnKeeps(p.children[t.child], t.turn);
    }
  }

  lemma {:induction false} TurnsOk(p: Process, ts: seq<ProcessTurn>)
    requires PInv(p)
    ensures PInv(Turns(p, ts)) && Rank(p.phase) <= Rank(Turns(p, ts).phase)
    ensures p.closingRequested ==> Turns(p, ts).closingRequested && NoNewBind(p, Turns(p, ts))
  {
    hide R.Inv, StartInv, CloseInv, PhaseInv, Take;
    if ts != [] {
      TurnsOk(p, ts[..|ts| - 1]);
      TakeOk(Turns(p, ts[..|ts| - 1]), ts[|ts| - 1]);
      TakeKeepsOrder(Turns(p, ts[..|ts| - 1]), ts[|ts| - 1]);
      if p.closingRequested {
        TakeBindsNothing(Turns(p, ts[..|ts| - 1]), ts[|ts| - 1]);
      }
    }
  }

  predicate ChildStopped(c: Runtime) {
    c.phase == Stopped && c.release.Done? && c.releases == 1
  }

  /**
   On every interleaving: one release at most, after every listener stopped; ready only while every
   listener is and no close was asked for.
   */
  lemma SafeOnEveryInterleaving(n: nat, ts: seq<ProcessTurn>)
    requires n > 0
    ensures var p := Turns(Initial(n), ts);
            && p.releases <= 1
            && (p.releases == 1 ==> forall k :: 0 <= k < n ==> ChildStopped(p.children[k]))
            && (p.phase == Ready ==>
                  !p.closingRequested
                  && forall k :: 0 <= k < n ==> p.children[k].phase == Ready && p.children[k].port.Some?)
            && (p.closeTask.CloseDone? ==> p.releases == 1 && p.phase == Stopped)
            && (p.startTask == StartDone(false) ==> p.releases == 1 && (p.phase == Failed || p.phase == Stopped))
  {
    hide Take;
    InitialOk(n);
    TurnsOk(Initial(n), ts);
  }

  /**
   And whatever happens later: the phase does not move backwards, and once a close was asked for no listener
   is bound.
   */
  lemma LaterTurns(n: nat, ts: seq<ProcessTurn>, us: seq<ProcessTurn>)
    requires n > 0
    ensures var p, q := Turns(Initial(n), ts), Turns(Turns(Initial(n), ts), us);
            && Rank(p.phase) <= Rank(q.phase)
            && (p.closingRequested ==> q.closingRequested && q.phase != Ready && NoNewBind(p, q))
  {
    hide Take;
    InitialOk(n);
    TurnsOk(Initial(n), ts);
    TurnsOk(Turns(Initial(n), ts), us);
  }

  // A close ends.

  predicate IsProgressTurn(t: ProcessTurn) {
    !t.CallStart? && !t.CallClose? && (t.ChildTurn? ==> IsProgress(t.turn))
  }

  /** A child that is being stopped has stopped, or waits for a turn that can happen. */
  lemma ChildStopProgress(p: Process, k: nat, t: ProcessTurn) returns (u: ProcessTurn)
    requires PInv(p) && StoppingAt(p, k)
    requires p.children[k].closePromise == Resolved ==> TurnEnabled(p, t) && IsProgressTurn(t)
    ensures TurnEnabled(p, u) && IsProgressTurn(u)
  {
    if p.children[k].closePromise == Resolved {
      u := t;
    } else {
      var turn := R.CloseProgress(p.children[k]);
      u := ChildTurn(k, turn);
    }
  }

  /**
   In every reachable state a close that is not over waits for a turn that can happen: `start` and `close`
   never wait for each other.
   */
  lemma CloseNeverStuck(p: Process) returns (t: ProcessTurn)
    requires PInv(p) && p.closingRequested && !p.closeTask.CloseDone?
    ensures TurnEnabled(p, t) && IsProgressTurn(t)
  {
    hide R.Inv;
    if p.closeTask.CloseStopping? {
      t := ChildStopProgress(p, p.closeTask.k, ClosedChildStopped);
    } else if p.closeTask == CloseReleasingTask {
      t := if p.release == Due then ProcessReleaseRuns else if p.release == Running then ProcessReleaseSettles(true)
      else ClosedReleased;
    } else if p.startTask.AwaitingChild? {
      var i := p.startTask.i;
      if Settled(p.children[i].startPromise) {
        t := ChildStarted(Bind(true, true, false));
      } else {
        var turn := R.StartProgress(p.children[i]);
        t := ChildTurn(i, turn);
      }
    } else if p.startTask.FailStopping? {
      t := ChildStopProgress(p, p.startTask.k, FailedChildStopped);
    } else if p.startTask == FailReleasing {
      t := if p.release == Due then ProcessReleaseRuns else if p.release == Running then ProcessReleaseSettles(true)
      else FailedReleased;
    } else {
      t := StartOverForClose;
    }
  }

  function ChildrenRemaining(cs: seq<Runtime>): nat {
    if cs == [] then 0 else Remaining(cs[0]) + ChildrenRemaining(cs[1..])
  }

  function StartRemaining(t: StartTask, n: nat): nat {
    match t
    case NotStarted => 2 * n + 4
    case AwaitingChild(i) => (if i < n then n - i else 0) + n + 3
    case FailStopping(k) => k + 3
    case FailReleasing => 1
    case StartDone(_) => 0
  }

  function CloseRemaining(t: CloseTask, n: nat): nat {
    match t
    case NotClosing => n + 4
    case AwaitingStartTask => n + 3
    case CloseStopping(k) => k + 3
    case CloseReleasingTask => 1
    case CloseDone(_) => 0
  }

  function ReleaseRemaining(r: Release): nat {
    match r case Unasked => 3 case Due => 2 case Running => 1 case Done(_) => 0
  }

  /** An upper bound on the turns still to come, the calls of `start` and `close` and the traffic apart. */
  function TurnsRemaining(p: Process): nat {
    StartRemaining(p.startTask, |p.children|) + CloseRemaining(p.closeTask, |p.children|)
    + ReleaseRemaining(p.release) + ChildrenRemaining(p.children)
  }

  lemma {:induction false} ChildReplaced(cs: seq<Runtime>, k: nat, d: Runtime)
    requires k < |cs|
    ensures ChildrenRemaining(cs[k := d]) == ChildrenRemaining(cs) - Remaining(cs[k]) + Remaining(d)
  {
    hide Remaining;
    if k > 0 {
      assert cs[k := d][1..] == cs[1..][k - 1 := d];
      ChildReplaced(cs[1..], k - 1, d);
    } else {
      assert cs[k := d][1..] == cs[1..];
    }
  }

  lemma CallsReplaced(cs: seq<Runtime>, k: nat, b: Bind)
    requires k < |cs| && R.Inv(cs[k])
    ensures ChildrenRemaining(cs[k := Close(cs[k])]) <= ChildrenRemaining(cs)
    ensures ChildrenRemaining(cs[k := R.Start(cs[k], b.unbound, b.listenThrows)]) <= ChildrenRemaining(cs)
  {
    hide R.Inv, R.Start, Close, Remaining, ChildrenRemaining;
    R.CallsEnd(cs[k], b.unbound, b.listenThrows);
    ChildReplaced(cs, k, Close(cs[k]));
    ChildReplaced(cs, k, R.Start(cs[k], b.unbound, b.listenThrows));
  }

  lemma StartTurnsEnd(p: Process, i: nat, b: Bind)
    requires |p.children| > 0 && i <= |p.children| && (forall k :: 0 <= k < |p.children| ==> R.Inv(p.children[k]))
    requires StartRemaining(p.startTask, |p.children|) > 2 * |p.children| - i + 3
    ensures TurnsRemaining(StartFrom(p, i, b)) < TurnsRemaining(p)
    ensures TurnsRemaining(Failing(p)) < TurnsRemaining(p)
  {
    hide R.Inv, R.Start, Close, ChildrenRemaining;
    CallsReplaced(p.children, |p.children| - 1, b);
    if i < |p.children| {
      CallsReplaced(p.children, i, b);
    }
  }

  lemma StopTurnsEnd(p: Process, k: nat)
    requires |p.children| > 0 && k < |p.children| && (forall k :: 0 <= k < |p.children| ==> R.Inv(p.children[k]))
    ensures TurnsRemaining(CloseChild(p, k)) <= TurnsRemaining(p)
  {
    hide R.Inv, R.Start, Close, ChildrenRemaining;
    CallsReplaced(p.children, k, Bind(true, true, false));
  }

  lemma CallsNotPutOff(p: Process, t: ProcessTurn)
    requires PInv(p) && TurnEnabled(p, t) && (t.CallStart? || t.CallClose?)
    ensures TurnsRemaining(Take(p, t)) <= TurnsRemaining(p)
  {
    hide R.Inv, R.Start, Close, Next, Remaining, ChildrenRemaining, StartFrom, CloseChild, Failing, StartInv, CloseInv,
      PhaseInv;
    var last := |p.children| - 1;
    match t
    case CallStart(b) => StartTurnsEnd(p.(phase := Starting), 0, b);
    case CallClose =>
      StopTurnsEnd(p.(closingRequested := true, closeTask := CloseStopping(last),
                   phase := if p.phase == Starting || p.phase == Ready then Draining else p.phase), last);
  }

  lemma ChildTurnEnds(p: Process, k: nat, turn: Turn)
    requires PInv(p) && TurnEnabled(p, ChildTurn(k, turn))
    ensures TurnsRemaining(Take(p, ChildTurn(k, turn))) <= TurnsRemaining(p)
    ensures IsProgress(turn) ==> TurnsRemaining(Take(p, ChildTurn(k, turn))) < TurnsRemaining(p)
  {
    hide R.Inv, Next, Remaining, ChildrenRemaining, StartInv, CloseInv, PhaseInv;
    R.TurnsEnd(p.children[k], turn);
    ChildReplaced(p.children, k, Next(p.children[k], turn));
  }

  lemma ProcessTurnEnds(p: Process, t: ProcessTurn)
    requires PInv(p) && TurnEnabled(p, t) && !t.CallStart? && !t.CallClose? && !t.ChildTurn?
    ensures TurnsRemaining(Take(p, t)) < TurnsRemaining(p)
  {
    hide R.Inv, R.Start, Close, Next, Remaining, ChildrenRemaining, StartFrom, CloseChild, Failing, StartInv, CloseInv,
      PhaseInv;
    var last := |p.children| - 1;
    match t
    case StartOverForClose => StopTurnsEnd(p.(closeTask := CloseStopping(last)), last);
    case ChildStarted(b) => StartTurnsEnd(p, p.startTask.i + 1, b);
    case FailedChildStopped =>
      if p.startTask.k > 0 {
        StopTurnsEnd(p.(startTask := FailStopping(p.startTask.k - 1)), p.startTask.k - 1);
      }
    case ClosedChildStopped =>
      if p.closeTask.k > 0 {
        StopTurnsEnd(p.(closeTask := CloseStopping(p.closeTask.k - 1)), p.closeTask.k - 1);
      }
    case _ =>
  }

  /** No turn puts the end of a close off, and every turn that it waits for brings it nearer. */
  lemma TurnsBringTheEnd(p: Process, t: ProcessTurn)
    requires PInv(p)
    ensures TurnsRemaining(Take(p, t)) <= TurnsRemaining(p)
    ensures TurnEnabled(p, t) && IsProgressTurn(t) ==> TurnsRemaining(Take(p, t)) < TurnsRemaining(p)
  {
    hide PInv, TurnsRemaining, TurnEnabled, Take;
    if !TurnEnabled(p, t) {
      NothingTaken(p, t);
    } else if t.CallStart? || t.CallClose? {
      CallsNotPutOff(p, t);
    } else if t.ChildTurn? {
      ChildTurnEnds(p, t.child, t.turn);
    } else {
      ProcessTurnEnds(p, t);
    }
  }

  lemma NothingTaken(p: Process, t: ProcessTurn)
    requires PInv(p) && !TurnEnabled(p, t)
    ensures |p.children| > 0 && TurnsRemaining(Take(p, t)) <= TurnsRemaining(p)
  {
    hide R.Inv, ChildrenRemaining, TurnEnabled, StartInv, CloseInv, PhaseInv;
  }

  /** How many of the turns were awaited and could happen. */
  function AwaitedTurns(p: Process, ts: seq<ProcessTurn>): nat
    requires |p.children| > 0
  {
    if ts == [] then 0
    else
      var q, t := Turns(p, ts[..|ts| - 1]), ts[|ts| - 1];
      AwaitedTurns(p, ts[..|ts| - 1]) + (if TurnEnabled(q, t) && IsProgressTurn(t) then 1 else 0)
  }

  /** Every awaited turn uses up one of the remaining ones. */
  lemma {:induction false} AwaitedTurnsCount(p: Process, ts: seq<ProcessTurn>)
    requires PInv(p)
    ensures PInv(Turns(p, ts)) && TurnsRemaining(Turns(p, ts)) + AwaitedTurns(p, ts) <= TurnsRemaining(p)
  {
    hide R.Inv, StartInv, CloseInv, PhaseInv, AllStopped, TurnsRemaining, TurnEnabled, Take;
    if ts != [] {
      var q, t := Turns(p, ts[..|ts| - 1]), ts[|ts| - 1];
      AwaitedTurnsCount(p, ts[..|ts| - 1]);
      TurnsBringTheEnd(q, t);
      TakeOk(q, t);
    }
  }

  /**
   Every close ends. Once it was asked for, at most `TurnsRemaining` awaited turns can still happen, whichever
   they are and whatever else happens in between; and where none can happen any more, the process is closed,
   every listener has stopped and the release was called once.
   */
  lemma CloseEnds(n: nat, ts: seq<ProcessTurn>, us: seq<ProcessTurn>)
    requires n > 0
    ensures var p := Turns(Initial(n), ts);
            var q := Turns(p, us);
            p.closingRequested ==>
              && AwaitedTurns(p, us) <= TurnsRemaining(p)
              && ((forall t :: IsProgressTurn(t) ==> !TurnEnabled(q, t)) ==> ClosedDown(q))
  {
    hide Take, TurnsRemaining, TurnEnabled, AwaitedTurns, StartInv, R.Inv;
    InitialOk(n);
    TurnsOk(Initial(n), ts);
    var p := Turns(Initial(n), ts);
    TurnsOk(p, us);
    AwaitedTurnsCount(p, us);
    var q := Turns(p, us);
    if p.closingRequested {
      if q.closeTask.CloseDone? {
        OverMeansClosedDown(q);
      } else {
        var t := CloseNeverStuck(q);
      }
    }
  }

  /** The close is over: the process has stopped, every listener has, and the release was called once. */
  predicate ClosedDown(p: Process) {
    && p.closeTask.CloseDone? && p.phase == Stopped && p.releases == 1
    && forall k :: 0 <= k < |p.children| ==> ChildStopped(p.children[k])
  }

  lemma OverMeansClosedDown(p: Process)
    requires PInv(p) && p.closeTask.CloseDone?
    ensures ClosedDown(p)
  {
  }

  /** The process after the first `k` turns of a run without end. */
  function After(n: nat, run: nat -> ProcessTurn, k: nat): Process
    requires n > 0
  {
    Turns(Initial(n), seq(k, i requires i >= 0 => run(i)))
  }

  lemma AfterNext(n: nat, run: nat -> ProcessTurn, k: nat)
    requires n > 0
    ensures PInv(After(n, run, k)) && After(n, run, k + 1) == Take(After(n, run, k), run(k))
    ensures After(n, run, k).closingRequested ==> After(n, run, k + 1).closingRequested
  {
    hide Take, StartInv, CloseInv, PhaseInv, R.Inv;
    InitialOk(n);
    var ts := seq(k, i requires i >= 0 => run(i));
    var us := seq(k + 1, i requires i >= 0 => run(i));
    TurnsOk(Initial(n), ts);
    assert us[..|us| - 1] == ts;
    TakeKeepsOrder(After(n, run, k), run(k));
  }

  /** In turn `k` something happens that a close waits for. */
  predicate Awaited(n: nat, run: nat -> ProcessTurn, k: nat)
    requires n > 0
  {
    IsProgressTurn(run(k)) && TurnEnabled(After(n, run, k), run(k))
  }

  /**
   The only thing that a close relies on: while it is not over, one of the turns that can happen and that
   it waits for happens sooner or later. There always is one that can, by `CloseNeverStuck`.
   */
  ghost predicate Fair(n: nat, run: nat -> ProcessTurn)
    requires n > 0
  {
    forall k: nat :: After(n, run, k).closingRequested && !After(n, run, k).closeTask.CloseDone? ==>
                       exists m: nat :: k <= m && Awaited(n, run, m)
  }

  /** Nothing that happens until turn `m` puts the end off. */
  lemma {:induction false} NotPutOff(n: nat, run: nat -> ProcessTurn, k: nat, m: nat)
    requires n > 0 && k <= m && After(n, run, k).closingRequested
    ensures After(n, run, m).closingRequested && PInv(After(n, run, m))
    ensures TurnsRemaining(After(n, run, m)) <= TurnsRemaining(After(n, run, k))
    decreases m - k
  {
    hide Take, TurnsRemaining, After, PInv;
    AfterNext(n, run, k);
    if k < m {
      TurnsBringTheEnd(After(n, run, k), run(k));
      NotPutOff(n, run, k + 1, m);
    }
  }

  /** On every fair run without end a close that was asked for comes to its end. */
  lemma {:induction false} FairCloseEnds(n: nat, run: nat -> ProcessTurn, k: nat) returns (m: nat)
    requires n > 0 && Fair(n, run) && After(n, run, k).closingRequested
    ensures k <= m && ClosedDown(After(n, run, m))
    decreases TurnsRemaining(After(n, run, k))
  {
    hide Take, TurnsRemaining, After, PInv, TurnEnabled, ClosedDown;
    if After(n, run, k).closeTask.CloseDone? {
      m := k;
      AfterNext(n, run, k);
      OverMeansClosedDown(After(n, run, k));
    } else {
      var j: nat :| k <= j && Awaited(n, run, j);
      NotPutOff(n, run, k, j);
      AfterNext(n, run, j);
      TurnsBringTheEnd(After(n, run, j), run(j));
      m := FairCloseEnds(n, run, j + 1);
    }
  }

  lemma StepToTheEnd(p: Process, t: ProcessTurn)
    requires PInv(p)
    ensures p.closeTask.CloseDone? ==> Take(p, t).closeTask.CloseDone?
    ensures !p.closeTask.CloseDone? && Take(p, t).closeTask.CloseDone? ==> TurnEnabled(p, t) && IsProgressTurn(t)
  {
    hide R.Inv, R.Start, Close, Next, StartInv, PhaseInv;
  }

  /** What is over stays over, and the turn that ended it was awaited. */
  lemma {:induction false} EndWasAwaited(n: nat, run: nat -> ProcessTurn, k: nat, m: nat)
    requires n > 0 && k <= m
    ensures After(n, run, k).closeTask.CloseDone? ==> After(n, run, m).closeTask.CloseDone?
    ensures !After(n, run, k).closeTask.CloseDone? && After(n, run, m).closeTask.CloseDone? ==>
              exists j: nat :: k <= j && Awaited(n, run, j)
    decreases m - k
  {
    hide Take, After, PInv, TurnEnabled;
    if k < m {
      AfterNext(n, run, k);
      StepToTheEnd(After(n, run, k), run(k));
      EndWasAwaited(n, run, k + 1, m);
      if !After(n, run, k).closeTask.CloseDone? && After(n, run, k + 1).closeTask.CloseDone? {
        assert Awaited(n, run, k);
      }
    }
  }

  /** Every run up to a close that was asked for goes on as a fair run without end. */
  lemma FairRunExists(n: nat, ts: seq<ProcessTurn>) returns (run: nat -> ProcessTurn)
    requires n > 0 && Turns(Initial(n), ts).closingRequested
    ensures Fair(n, run) && After(n, run, |ts|) == Turns(Initial(n), ts)
  {
    hide Take, PInv, TurnEnabled;
    InitialOk(n);
    TurnsOk(Initial(n), ts);
    var us := CloseCanEnd(Turns(Initial(n), ts));
    var all := ts + us;
    run := (i: nat) => if i < |all| then all[i] else CallClose;
    TurnsJoined(Initial(n), ts, us);
    assert seq(|all|, i requires i >= 0 => run(i)) == all;
    assert seq(|ts|, i requires i >= 0 => run(i)) == ts;
    forall k: nat | !After(n, run, k).closeTask.CloseDone? ensures exists m: nat :: k <= m && Awaited(n, run, m) {
      if k <= |all| {
        EndWasAwaited(n, run, k, |all|);
      } else {
        EndWasAwaited(n, run, |all|, k);
      }
    }
  }

  lemma {:induction false} TurnsJoined(p: Process, ts: seq<ProcessTurn>, us: seq<ProcessTurn>)
    requires |p.children| > 0
    ensures Turns(p, ts + us) == Turns(Turns(p, ts), us)
  {
    hide Take;
    if us == [] {
      assert ts + us == ts;
    } else {
      assert (ts + us)[..|ts + us| - 1] == ts + us[..|us| - 1];
      TurnsJoined(p, ts, us[..|us| - 1]);
    }
  }

  /** And from every state in which a close was asked for some run of turns ends it. */
  lemma {:induction false} CloseCanEnd(p: Process) returns (ts: seq<ProcessTurn>)
    requires PInv(p) && p.closingRequested
    ensures Turns(p, ts).closeTask.CloseDone?
    decreases TurnsRemaining(p)
  {
    hide R.Inv, StartInv, CloseInv, PhaseInv, AllStopped, TurnsRemaining, TurnEnabled, Take;
    if p.closeTask.CloseDone? {
      ts := [];
    } else {
      var t := CloseNeverStuck(p);
      TurnsBringTheEnd(p, t);
      TakeOk(p, t);
      TakeKeepsOrder(p, t);
      var us := CloseCanEnd(Take(p, t));
      ts := [t] + us;
      TurnsJoined(p, [t], us);
      assert [t][..0] == [];
    }
  }

  /** The closure of `createStagingCaseProcessLifecycle`: its variables, and a method for every turn. */
  class StagingCaseProcessLifecycle {
    var phase: Phase
    var closingRequested: bool
    var startTask: StartTask
    var closeTask: CloseTask
    var releasePromise: Release
    var releases: nat
    var children: seq<Runtime>

    function View(): Process
      reads this
    {
      Process(phase, closingRequested, startTask, closeTask, releasePromise, releases, children)
    }

    constructor (n: nat)
      requires n > 0
      ensures View() == Initial(n) && PInv(View())
    {
      phase, closingRequested, startTask, closeTask := New, false, NotStarted, NotClosing;
      releasePromise, releases, children := Unasked, 0, seq(n, i => Created());
      new;
      InitialOk(n);
    }

    method InvokeReleaseOnce()
      modifies this
      ensures View() == AskRelease(old(View()))
    {
      if releasePromise == Unasked {
        releasePromise := Due;
      }
    }

    method CloseTheChild(k: nat)
      requires k < |children|
      modifies this
      ensures View() == CloseChild(old(View()), k)
    {
      children := children[k := Close(children[k])];
    }

    method FailStart()
      requires |children| > 0
      modifies this
      ensures View() == Failing(old(View()))
    {
      phase := Failed;
      startTask := FailStopping(|children| - 1);
      CloseTheChild(|children| - 1);
    }

    /** The loop of `start` from child `i` to the next `await`. */
    method ContinueStart(i: nat, b: Bind)
      requires |children| > 0
      modifies this
      ensures View() == StartFrom(old(View()), i, b)
    {
      if i >= |children| {
        if !closingRequested {
          phase := Ready;
        }
        startTask := StartDone(true);
      } else if closingRequested {
        startTask := StartDone(true);
      } else if !b.guardOk {
        FailStart();
      } else {
        children := children[i := R.Start(children[i], b.unbound, b.listenThrows)];
        startTask := AwaitingChild(i);
      }
    }

    method StartProcess(b: Bind)
      requires PInv(View())
      modifies this
      ensures View() == Take(old(View()), CallStart(b)) && PInv(View())
    {
      TakeOk(View(), CallStart(b));
      if startTask != NotStarted {
        return;
      }
      if phase == Stopped {
        startTask := StartDone(true);
        return;
      }
      if phase != New {
        return;
      }
      phase := Starting;
      ContinueStart(0, b);
    }

    method StopChildrenInReverse()
      requires |children| > 0
      modifies this
      ensures View() == BeginStopping(old(View()))
    {
      closeTask := CloseStopping(|children| - 1);
      CloseTheChild(|children| - 1);
    }

    method CloseProcess()
      requires PInv(View())
      modifies this
      ensures View() == Take(old(View()), CallClose) && PInv(View())
    {
      TakeOk(View(), CallClose);
      if closeTask != NotClosing {
        return;
      }
      closingRequested := true;
      if phase == Starting || phase == Ready {
        phase := Draining;
      }
      if startTask != NotStarted {
        closeTask := AwaitingStartTask;
      } else {
        StopChildrenInReverse();
      }
    }

    /** The turn after the awaited child has started or failed to. */
    method AfterChildStarted(b: Bind)
      requires PInv(View()) && TurnEnabled(View(), ChildStarted(b))
      modifies this
      ensures View() == Take(old(View()), ChildStarted(b)) && PInv(View())
    {
      TakeOk(View(), ChildStarted(b));
      var child := children[startTask.i];
      if child.startPromise == Resolved && child.phase == Ready && child.port.Some? {
        ContinueStart(startTask.i + 1, b);
      } else {
        FailStart();
      }
    }

    method AfterFailedChildStopped()
      requires PInv(View()) && TurnEnabled(View(), FailedChildStopped)
      modifies this
      ensures View() == Take(old(View()), FailedChildStopped) && PInv(View())
    {
      hide R.Inv, StartInv, CloseInv, PhaseInv, Close;
      TakeOk(View(), FailedChildStopped);
      var k := startTask.k;
      if k == 0 {
        startTask := FailReleasing;
        InvokeReleaseOnce();
      } else {
        startTask := FailStopping(k - 1);
        CloseTheChild(k - 1);
      }
    }

    method AfterClosedChildStopped()
      requires PInv(View()) && TurnEnabled(View(), ClosedChildStopped)
      modifies this
      ensures View() == Take(old(View()), ClosedChildStopped) && PInv(View())
    {
      hide R.Inv, StartInv, CloseInv, PhaseInv, Close;
      TakeOk(View(), ClosedChildStopped);
      var k := closeTask.k;
      if k == 0 {
        phase := Stopped;
        closeTask := CloseReleasingTask;
        InvokeReleaseOnce();
      } else {
        closeTask := CloseStopping(k - 1);
        CloseTheChild(k - 1);
      }
    }

    /** The turns after the start, or the release, has settled. */
    method AfterSettled(t: ProcessTurn)
      requires PInv(View()) && TurnEnabled(View(), t)
      requires t.StartOverForClose? || t.FailedReleased? || t.ClosedReleased? || t.ProcessReleaseRuns?
               || t.ProcessReleaseSettles?
      modifies this
      ensures View() == Take(old(View()), t) && PInv(View())
    {
      TakeOk(View(), t);
      match t {
        case StartOverForClose => StopChildrenInReverse();
        case FailedReleased => startTask := StartDone(false);
        case ClosedReleased => closeTask := CloseDone(releasePromise.ok);
        case ProcessReleaseRuns => releasePromise := Running; releases := releases + 1;
        case ProcessReleaseSettles(ok) => releasePromise := Done(ok);
      }
    }

    /** `readyPorts`: while ready, the ports of all listeners. */
    method ReadyPorts() returns (ports: seq<nat>)
      requires PInv(View())
      ensures phase == Ready ==>
                |ports| == |children| && forall k :: 0 <= k < |ports| ==> children[k].port == Some(ports[k])
      ensures phase != Ready ==> ports == []
    {
      ports := [];
      if phase != Ready {
        return;
      }
      var k := 0;
      while k < |children|
        invariant 0 <= k == |ports| <= |children|
        invariant forall j :: 0 <= j < k ==> children[j].port == Some(ports[j])
      {
        if children[k].phase != Ready || children[k].port == None {
          return [];
        }
        ports := ports + [children[k].port.value];
        k := k + 1;
      }
    }
  }
}
