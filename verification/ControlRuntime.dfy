/** The control runtime around the process lifecycle: what its release does to the durable store. */
module ControlRuntime {
  import opened Results
  import opened R = RuntimeLifecycle
  import opened ProcessLifecycle

  /** Whether the store was sealed or only closed, once it was released. */
  datatype Store = Open | Closed | Sealed

  datatype Control = Control(process: Process, durableState: bool, recovery: bool, readyForSeal: bool, released: bool,
                             store: Store)

  datatype ControlTurn =
    | ProcessTurn(turn: ProcessLifecycle.ProcessTurn)
    | StartContinues
      /** The release, and whether sealing or closing the store throws. */
    | ReleaseTurn(throws: bool)

  function Composed(n: nat, durableState: bool, recovery: bool): Control {
    Control(Initial(n), durableState, recovery, !recovery, false, Open)
  }

  /** `release`. */
  function ReleaseStore(c: Control, throws: bool): Control {
    if c.released || throws then c
    else c.(released := true, store := if c.durableState && c.readyForSeal then Sealed else Closed)
  }

  /** The turn of the process that calls `release` is a turn of its own here. */
  function TakeControl(c: Control, t: ControlTurn): (d: Control)
    requires |c.process.children| > 0
    ensures |d.process.children| == |c.process.children| && d.durableState == c.durableState && d.recovery == c.recovery
  {
    match t
    case ProcessTurn(turn) => if turn == ProcessReleaseRuns then c else c.(process := Take(c.process, turn))
    case StartContinues =>
      if c.process.startTask == StartDone(true) && c.process.phase == Ready then c.(readyForSeal := true) else c
    case ReleaseTurn(throws) =>
      if c.process.release == Due then ReleaseStore(c.(process := Take(c.process, ProcessReleaseRuns)), throws) else c
  }

  function ControlTurns(c: Control, ts: seq<ControlTurn>): (d: Control)
    requires |c.process.children| > 0
    ensures |d.process.children| == |c.process.children| && d.durableState == c.durableState && d.recovery == c.recovery
  {
    if ts == [] then c else TakeControl(ControlTurns(c, ts[..|ts| - 1]), ts[|ts| - 1])
  }

  /** The continuation of `start` found the whole process ready in turn `m`. */
  predicate FoundReady(c: Control, ts: seq<ControlTurn>, m: nat)
    requires |c.process.children| > 0
  {
    && m < |ts| && ts[m] == StartContinues
    && ControlTurns(c, ts[..m]).process.phase == Ready
    && ControlTurns(c, ts[..m]).process.startTask == StartDone(true)
  }

  ghost predicate CInv(c: Control) {
    && PInv(c.process)
    && (c.store != Open <==> c.released) && (c.released ==> c.process.releases == 1)
    && (!c.recovery ==> c.readyForSeal)
    && (c.store == Sealed ==> c.durableState && c.readyForSeal)
  }

  lemma ControlTurnOk(c: Control, t: ControlTurn)
    requires CInv(c)
    ensures CInv(TakeControl(c, t))
  {
    hide R.Inv, StartInv, CloseInv, PhaseInv;
    match t
    case ProcessTurn(turn) => TakeOk(c.process, turn);
    case StartContinues =>
    case ReleaseTurn(_) => TakeOk(c.process, ProcessReleaseRuns);
  }

  lemma {:induction false} ControlTurnsOk(c: Control, ts: seq<ControlTurn>)
    requires CInv(c)
    ensures CInv(ControlTurns(c, ts))
  {
    hide R.Inv, StartInv, CloseInv, PhaseInv, TakeControl;
    if ts != [] {
      ControlTurnsOk(c, ts[..|ts| - 1]);
      ControlTurnOk(ControlTurns(c, ts[..|ts| - 1]), ts[|ts| - 1]);
    }
  }

  /** A recovery may seal exactly if a continuation of its start found the whole process ready. */
  lemma {:induction false} ReadyForSealMeans(c: Control, ts: seq<ControlTurn>)
    requires |c.process.children| > 0
    ensures ControlTurns(c, ts).readyForSeal <==> c.readyForSeal || exists m :: FoundReady(c, ts, m)
  {
    hide Take;
    if ts != [] {
      var init := ts[..|ts| - 1];
      ReadyForSealMeans(c, init);
      forall m | 0 <= m < |ts| - 1 ensures FoundReady(c, ts, m) <==> FoundReady(c, init, m) {
        assert init[..m] == ts[..m];
      }
      if ControlTurns(c, ts).readyForSeal && !ControlTurns(c, init).readyForSeal {
        assert FoundReady(c, ts, |ts| - 1);
      }
      if m: nat :| FoundReady(c, ts, m) {
        assert m < |ts| - 1 ==> FoundReady(c, init, m);
      }
    }
  }

  /** In turn `r` the release runs and does not throw. */
  predicate ReleasedAt(c: Control, ts: seq<ControlTurn>, r: nat)
    requires |c.process.children| > 0
  {
    r < |ts| && ts[r] == ReleaseTurn(false) && ControlTurns(c, ts[..r]).process.release == Due
  }

  /** A process whose release is due has not been released. */
  lemma DueOnce(c: Control)
    requires CInv(c) && c.process.release == Due
    ensures !c.released
  {
    hide R.Inv, StartInv, CloseInv;
  }

  lemma {:induction false} StoreWasReleased(c: Control, ts: seq<ControlTurn>)
    requires CInv(c) && c.store == Open
    ensures ControlTurns(c, ts).store != Open <==> exists r :: ReleasedAt(c, ts, r)
  {
    hide R.Inv, StartInv, CloseInv, PhaseInv, Take;
    if ts != [] {
      var init, n := ts[..|ts| - 1], |ts| - 1;
      StoreWasReleased(c, init);
      ControlTurnsOk(c, init);
      forall r | 0 <= r < n ensures ReleasedAt(c, ts, r) <==> ReleasedAt(c, init, r) {
        assert init[..r] == ts[..r];
      }
      if ControlTurns(c, init).process.release == Due {
        DueOnce(ControlTurns(c, init));
      }
      if ReleasedAt(c, ts, n) {
        assert ControlTurns(c, ts).store != Open;
      }
      if ControlTurns(c, ts).store != Open && ControlTurns(c, init).store == Open {
        assert ReleasedAt(c, ts, n);
      }
      if ControlTurns(c, init).store != Open {
        var r :| ReleasedAt(c, init, r);
        assert ReleasedAt(c, ts, r);
      }
    }
  }

  /** What the release does to the store is settled in its turn. */
  lemma {:induction false} StoreIsSettled(c: Control, ts: seq<ControlTurn>, r: nat)
    requires CInv(c) && c.store == Open && ReleasedAt(c, ts, r)
    ensures ControlTurns(c, ts).store
         == if c.durableState && ControlTurns(c, ts[..r]).readyForSeal then Sealed else Closed
  {
    hide R.Inv, StartInv, CloseInv, PhaseInv, Take;
    var init := ts[..|ts| - 1];
    ControlTurnsOk(c, init);
    if r == |ts| - 1 {
      DueOnce(ControlTurns(c, init));
    } else {
      assert init[..r] == ts[..r];
      StoreIsSettled(c, init, r);
    }
  }

  /** Some continuation of `start` before turn `r` found the whole process ready. */
  ghost predicate FoundReadyBefore(c: Control, ts: seq<ControlTurn>, r: nat)
    requires |c.process.children| > 0
  {
    exists m: nat :: m < r && FoundReady(c, ts, m)
  }

  lemma ReadyBefore(c: Control, ts: seq<ControlTurn>, r: nat)
    requires |c.process.children| > 0 && r <= |ts|
    ensures ControlTurns(c, ts[..r]).readyForSeal <==> c.readyForSeal || FoundReadyBefore(c, ts, r)
  {
    hide TakeControl;
    ReadyForSealMeans(c, ts[..r]);
    forall m: nat | m < r ensures FoundReady(c, ts, m) <==> FoundReady(c, ts[..r], m) {
      assert ts[..r][..m] == ts[..m];
    }
    if m: nat :| FoundReady(c, ts[..r], m) {
      assert FoundReady(c, ts, m);
    }
  }

  /**
   On every interleaving: the store is released only after every listener stopped, and exactly if a release
   ran that did not throw. That release seals it exactly if the state is durable and, after a recovery, some
   continuation of `start` before it had found the whole process ready.
   */
  lemma SealsOnlyWhatWasReady(n: nat, durableState: bool, recovery: bool, ts: seq<ControlTurn>)
    requires n > 0
    ensures var start := Composed(n, durableState, recovery);
            var c := ControlTurns(start, ts);
            && (c.store != Open ==>
                  c.process.releases == 1 && forall k :: 0 <= k < n ==> ChildStopped(c.process.children[k]))
            && (c.store != Open <==> exists r :: ReleasedAt(start, ts, r))
            && forall r: nat :: ReleasedAt(start, ts, r) ==>
                                  (c.store == Sealed <==> durableState && (recovery ==> FoundReadyBefore(start, ts, r)))
  {
    hide R.Inv, TakeControl, ControlTurns, StartInv, CloseInv, PhaseInv, FoundReadyBefore, ReleasedAt;
    var start := Composed(n, durableState, recovery);
    InitialOk(n);
    ControlTurnsOk(start, ts);
    StoppedListeners(ControlTurns(start, ts).process);
    StoreWasReleased(start, ts);
    forall r: nat | ReleasedAt(start, ts, r)
      ensures ControlTurns(start, ts).store == Sealed <==>
              durableState && (recovery ==> FoundReadyBefore(start, ts, r))
    {
      StoreIsSettled(start, ts, r);
      assert r <= |ts| by { ReleasedWithin(start, ts, r); }
      ReadyBefore(start, ts, r);
    }
  }

  lemma ReleasedWithin(c: Control, ts: seq<ControlTurn>, r: nat)
    requires |c.process.children| > 0 && ReleasedAt(c, ts, r)
    ensures r < |ts|
  {
  }

  lemma StoppedListeners(p: Process)
    requires PInv(p)
    ensures p.releases == 1 ==> forall k :: 0 <= k < |p.children| ==> ChildStopped(p.children[k])
  {
  }

  /** The closure of `composeStagingCaseControlRuntime`. */
  class StagingCaseControlRuntime {
    const durableState: bool
    const recovery: bool
    var recoveryReadyForSeal: bool
    var released: bool
    var durable: Store
    const lifecycle: StagingCaseProcessLifecycle

    function View(): Control
      reads this, lifecycle
    {
      Control(lifecycle.View(), durableState, recovery, recoveryReadyForSeal, released, durable)
    }

    constructor (n: nat, durableState: bool, recovery: bool)
      requires n > 0
      ensures View() == Composed(n, durableState, recovery)
    {
      this.durableState, this.recovery, recoveryReadyForSeal := durableState, recovery, !recovery;
      released, durable := false, Open;
      lifecycle := new StagingCaseProcessLifecycle(n);
    }

    /** The continuation of `start` after the lifecycle has started. */
    method AfterStarted()
      requires PInv(lifecycle.View())
      modifies this
      ensures View() == TakeControl(old(View()), StartContinues)
    {
      if lifecycle.startTask == StartDone(true) && lifecycle.phase == Ready {
        recoveryReadyForSeal := true;
      }
    }

    /** The release callback, called by the lifecycle. */
    method Release(throws: bool)
      requires PInv(lifecycle.View()) && lifecycle.releasePromise == Due
      modifies this, lifecycle
      ensures View() == TakeControl(old(View()), ReleaseTurn(throws))
    {
      lifecycle.AfterSettled(ProcessReleaseRuns);
      if released || throws {
        return;
      }
      durable := if durableState && recoveryReadyForSeal then Sealed else Closed;
      released := true;
    }
  }
}
