/**
 When a process is ready. Seen only through its readiness, the whole life of a process with its listeners
 is a small automaton that starts one listener after the other.
 */
module ProcessHistory {
  import opened Results
  import opened R = RuntimeLifecycle
  import opened ProcessLifecycle

  /** The ports of the listeners that are ready so far, and what the start waits for. */
  datatype Startup =
    | Untouched
    | AwaitingAnswer(ports: seq<nat>)
    | Answered(ports: seq<nat>)
    | AllReady(ports: seq<nat>)
    | Lost

  /** The guard lets the listener bind, its server is unbound, and it takes `listen`. */
  predicate BindsWell(b: Bind) {
    b.guardOk && b.unbound && !b.listenThrows
  }

  function Begin(n: nat, ports: seq<nat>, b: Bind): Startup {
    if |ports| == n then AllReady(ports) else if BindsWell(b) then AwaitingAnswer(ports) else Lost
  }

  /**
   A start that binds well waits for the answer of the listener; the promised address brings its port, and
   when the start goes on, the next listener is started. A close, or any other answer, loses readiness for good.
   */
  function StartupNext(n: nat, s: Startup, t: ProcessTurn): Startup {
    match t
    case CallClose => Lost
    case CallStart(b) => if s.Untouched? then Begin(n, [], b) else s
    case ChildStarted(b) => if s.Answered? then Begin(n, s.ports, b) else s
    case ChildTurn(k, turn) =>
      if !(s.AwaitingAnswer? && k == |s.ports|) then s
      else if turn.Listening? then (if turn.addressOk then Answered(s.ports + [turn.port]) else Lost)
      else if turn.BindError? then Lost
      else s
    case _ => s
  }

  function StartupOf(n: nat, ts: seq<ProcessTurn>): Startup {
    if ts == [] then Untouched else StartupNext(n, StartupOf(n, ts[..|ts| - 1]), ts[|ts| - 1])
  }

  predicate ReadyOn(c: Runtime, port: nat) {
    c.phase == Ready && c.port == Some(port) && !c.closingRequested
  }

  /** A listener whose start has failed or is failing. */
  predicate Doomed(c: Runtime) {
    c.startAt == Unbinding || c.startAt == StartReleasing || c.startPromise == Rejected
  }

  ghost predicate Have(p: Process, ports: seq<nat>) {
    |ports| <= |p.children| && forall k :: 0 <= k < |ports| ==> ReadyOn(p.children[k], ports[k])
  }

  /** What the automaton says of the process. */
  ghost predicate Shows(p: Process, s: Startup) {
    match s
    case Untouched => p.phase == New && p.startTask == NotStarted && !p.closingRequested
    case AwaitingAnswer(ports) =>
      && p.phase == Starting && p.startTask == AwaitingChild(|ports|) && !p.closingRequested && Have(p, ports)
      && |ports| < |p.children| && p.children[|ports|].startAt == Binding && p.children[|ports|].phase == Starting
    case Answered(ports) =>
      && p.phase == Starting && ports != [] && p.startTask == AwaitingChild(|ports| - 1) && !p.closingRequested
      && Have(p, ports)
    case AllReady(ports) =>
      p.phase == Ready && p.startTask == StartDone(true) && !p.closingRequested && Have(p, ports)
      && |ports| == |p.children|
    case Lost =>
      && p.phase != Ready
      && (p.closingRequested || p.phase == Failed || p.phase == Stopped
          || (p.startTask.AwaitingChild? && p.startTask.i < |p.children| && Doomed(p.children[p.startTask.i])))
  }

  // One turn.

  lemma ListenerTurn(c: Runtime, t: Turn)
    requires R.Inv(c)
    ensures forall port :: ReadyOn(c, port) ==> ReadyOn(Next(c, t), port)
    ensures Doomed(c) ==> Doomed(Next(c, t))
    ensures c.startAt == Binding && !c.closingRequested ==>
              var d := Next(c, t);
              match t
              case Listening(addressOk, port) => if addressOk then ReadyOn(d, port) else Doomed(d)
              case BindError => Doomed(d)
              case _ => d.startAt == Binding && d.phase == c.phase && !d.closingRequested
  {
  }

  lemma ListenerStart(c: Runtime, b: Bind)
    requires R.Inv(c) && c.startPromise == Unset && !c.closingRequested
    ensures var d := R.Start(c, b.unbound, b.listenThrows);
            if b.unbound && !b.listenThrows then d.startAt == Binding && d.phase == Starting && !d.closingRequested
            else Doomed(d)
  {
  }

  /** The start at the next listener, or at its end. */
  lemma BeginShows(p: Process, ports: seq<nat>, b: Bind)
    requires PInv(p) && p.phase == Starting && !p.closingRequested && Have(p, ports)
    requires forall k :: |ports| <= k < |p.children| ==> p.children[k].startPromise == Unset
                                                         && !p.children[k].closingRequested
    ensures Shows(StartFrom(p, |ports|, b), Begin(|p.children|, ports, b))
  {
    hide R.Inv, R.Start, Close, StartInv, CloseInv, PhaseInv, ReadyOn;
    if |ports| < |p.children| {
      ListenerStart(p.children[|ports|], b);
    }
  }

  lemma StartShows(p: Process, s: Startup, b: Bind)
    requires PInv(p) && Shows(p, s)
    ensures Shows(Take(p, CallStart(b)), StartupNext(|p.children|, s, CallStart(b)))
  {
    hide R.Inv, R.Start, Close;
    if s.Untouched? {
      forall k | 0 <= k < |p.children| ensures !p.children[k].closingRequested {
        CloseFlag(p.children[k]);
      }
      BeginShowsFromStart(p, b);
    }
  }

  lemma BeginShowsFromStart(p: Process, b: Bind)
    requires PInv(p) && p.phase == New && p.startTask == NotStarted && !p.closingRequested
    requires forall k :: 0 <= k < |p.children| ==> !p.children[k].closingRequested
    ensures Shows(Take(p, CallStart(b)), Begin(|p.children|, [], b))
  {
    hide R.Inv, R.Start, Close, CloseInv, PhaseInv;
    ListenerStart(p.children[0], b);
  }

  lemma GoOnShows(p: Process, s: Startup, b: Bind)
    requires PInv(p) && Shows(p, s)
    ensures Shows(Take(p, ChildStarted(b)), StartupNext(|p.children|, s, ChildStarted(b)))
  {
    hide R.Inv, R.Start, Close, CloseInv;
    if s.AwaitingAnswer? || s.Lost? {
      if p.startTask.AwaitingChild? {
        StartFlags(p.children[p.startTask.i]);
      }
    }
    if s.Answered? {
      StartFlags(p.children[p.startTask.i]);
      BeginShows(p, s.ports, b);
    }
  }

  lemma StartFlags(c: Runtime)
    requires R.Inv(c)
    ensures c.startAt == Binding || c.startAt == Unbinding || c.startAt == StartReleasing ==> !Settled(c.startPromise)
    ensures c.phase == Ready ==> c.startPromise == Resolved && c.port.Some?
    ensures Doomed(c) && Settled(c.startPromise) ==> c.startPromise == Rejected
  {
  }

  lemma ChildTurnShows(p: Process, s: Startup, k: nat, t: Turn)
    requires PInv(p) && Shows(p, s)
    ensures Shows(Take(p, ChildTurn(k, t)), StartupNext(|p.children|, s, ChildTurn(k, t)))
  {
    hide R.Inv, Next, StartInv, CloseInv, PhaseInv, ReadyOn, Doomed, Enabled;
    if k < |p.children| {
      ListenerTurn(p.children[k], t);
      NotEnabled(p.children[k], t);
      if s.AwaitingAnswer? && k == |s.ports| {
        assert Enabled(p.children[k], t) || (!t.Listening? && !t.BindError?) by { BindingAnswers(p.children[k], t); }
        BindingOpen(p.children[k]);
      }
    }
  }

  lemma NotEnabled(c: Runtime, t: Turn)
    ensures !Enabled(c, t) ==> Next(c, t) == c
  {
  }

  lemma BindingAnswers(c: Runtime, t: Turn)
    requires c.startAt == Binding
    ensures t.Listening? || t.BindError? ==> Enabled(c, t)
  {
  }

  lemma BindingOpen(c: Runtime)
    requires R.Inv(c) && c.phase == Starting
    ensures !c.closingRequested
  {
  }

  /** Every other turn belongs to a failure, to the release or to a close. */
  lemma OtherShows(p: Process, s: Startup, t: ProcessTurn)
    requires PInv(p) && Shows(p, s)
    requires !t.CallStart? && !t.ChildStarted? && !t.ChildTurn?
    ensures Shows(Take(p, t), StartupNext(|p.children|, s, t))
  {
    hide R.Inv, Close, ReadyOn, Doomed;
  }

  lemma TurnShows(p: Process, s: Startup, t: ProcessTurn)
    requires PInv(p) && Shows(p, s)
    ensures Shows(Take(p, t), StartupNext(|p.children|, s, t))
  {
    hide PInv, Shows, Take, StartupNext;
    match t
    case CallStart(b) => StartShows(p, s, b);
    case ChildStarted(b) => GoOnShows(p, s, b);
    case ChildTurn(k, turn) => ChildTurnShows(p, s, k, turn);
    case _ => OtherShows(p, s, t);
  }

  lemma {:induction false} TurnsShow(n: nat, ts: seq<ProcessTurn>)
    requires n > 0
    ensures PInv(Turns(Initial(n), ts)) && Shows(Turns(Initial(n), ts), StartupOf(n, ts))
  {
    hide PInv, Shows, Take, StartupNext;
    if ts == [] {
      InitialOk(n);
      NothingShown(n);
    } else {
      var p := Turns(Initial(n), ts[..|ts| - 1]);
      TurnsShow(n, ts[..|ts| - 1]);
      TurnShows(p, StartupOf(n, ts[..|ts| - 1]), ts[|ts| - 1]);
      TakeOk(p, ts[|ts| - 1]);
    }
  }

  lemma NothingShown(n: nat)
    requires n > 0
    ensures Shows(Initial(n), Untouched)
  {
  }

  /**
   On every interleaving the process is ready exactly if the automaton is, that is, if every listener in turn
   was started well and answered with the promised address, the start went on after each, and no close was
   called. The ports of the listeners are then those of the answers.
   */
  lemma ReadyByCourse(n: nat, ts: seq<ProcessTurn>)
    requires n > 0
    ensures var p, s := Turns(Initial(n), ts), StartupOf(n, ts);
            && (p.phase == Ready <==> s.AllReady?)
            && (s.AllReady? ==>
                  |s.ports| == n && forall k :: 0 <= k < n ==> p.children[k].phase == Ready
                                                               && p.children[k].port == Some(s.ports[k]))
  {
    hide Take, StartupNext, PInv, Doomed;
    TurnsShow(n, ts);
  }

  /** Until readiness is lost no close was called, and every port came with an answer of its listener. */
  lemma {:induction false} PortsWereAnswered(n: nat, ts: seq<ProcessTurn>)
    requires n > 0
    ensures var s := StartupOf(n, ts);
            !s.Lost? ==>
              && CallClose !in ts
              && (!s.Untouched? ==> forall k :: 0 <= k < |s.ports| ==> ChildTurn(k, Listening(true, s.ports[k])) in ts)
  {
    if ts != [] {
      var init := ts[..|ts| - 1];
      PortsWereAnswered(n, init);
      assert ts == init + [ts[|ts| - 1]];
    }
  }

  lemma ReleaseTurn(p: Process, t: ProcessTurn)
    requires PInv(p) && (p.closeTask.CloseDone? ==> p.release == Done(p.closeTask.ok))
    ensures var q := Take(p, t); q.closeTask.CloseDone? ==> q.release == Done(q.closeTask.ok)
  {
    hide R.Inv, R.Start, Close, Next, StartInv;
  }

  /** A close that is over reports whether the release succeeded. */
  lemma {:induction false} CloseReports(n: nat, ts: seq<ProcessTurn>)
    requires n > 0
    ensures var p := Turns(Initial(n), ts); p.closeTask.CloseDone? ==> p.release == Done(p.closeTask.ok)
  {
    hide PInv, Take;
    if ts != [] {
      CloseReports(n, ts[..|ts| - 1]);
      TurnsShow(n, ts[..|ts| - 1]);
      ReleaseTurn(Turns(Initial(n), ts[..|ts| - 1]), ts[|ts| - 1]);
    }
  }
}
