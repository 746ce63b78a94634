/**
  Deadlock on the two mutexes of the recorder.  They are taken in both orders; the workers still
  deadlock only when the driver's stop call re-enters Fatal, and otherwise every operation that
  has begun can be run to its end.
*/
module RecorderDeadlock {
  import opened RecorderMachine
  import opened RecorderInvariant

  // ---------------------------------------------------------------- deadlock

  /** Worker `t` is at a blocking lock of a mutex that worker `u` owns. */
  predicate WaitsFor(s: State, t: nat, u: nat)
  {
    && t < |s.workers|
    && ((WantsRun(s.workers[t]) && s.ctl.runOwner == Worker(u))
        || (WantsFlow(s.workers[t]) && s.ctl.flowOwner == Worker(u)))
  }

  /** A closed walk along WaitsFor. */
  predicate WaitCycle(s: State, cyc: seq<nat>)
  {
    && |cyc| > 1 && cyc[0] == cyc[|cyc| - 1]
    && forall i | 0 < i < |cyc| :: WaitsFor(s, cyc[i - 1], cyc[i])
  }

  ghost predicate Deadlocked(s: State) { exists cyc :: WaitCycle(s, cyc) }

  /** Outside a re-entered Fatal no worker waits for a mutex that it owns itself. */
  lemma {:induction false} NeverWaitsForItself(s: State, t: nat)
    requires Inv(s) && !s.ctl.nested && t < |s.workers|
    ensures !(HoldsRun(s.workers[t]) && WantsRun(s.workers[t]))
    ensures !(HoldsFlow(s.workers[t]) && WantsFlow(s.workers[t]))
  {
    var w := s.workers[t];
    assert WorkOk(s.ctl, w);
    if w.Fatally? && HoldsFlow(w.back) {
      FlowHeldBelow(s.ctl, w.back);
    }
  }

  /** The run mutex is taken under the flow mutex only by an OpenDev that is not ready, and the flow
      mutex under the run mutex only by a StopEncoding that has seen streaming: never both. */
  lemma {:induction false} OrdersNeverMeet(s: State, t: nat, u: nat)
    requires Inv(s) && !s.ctl.nested && t < |s.workers| && u < |s.workers|
    requires HoldsRun(s.workers[t]) && WantsFlow(s.workers[t])
    ensures !(HoldsFlow(s.workers[u]) && WantsRun(s.workers[u]))
  {
    assert WorkOk(s.ctl, s.workers[t]) && WorkOk(s.ctl, s.workers[u]);
    if HoldsFlow(s.workers[u]) && WantsRun(s.workers[u]) {
      FlowHeldBelow(s.ctl, s.workers[u].back);
    }
  }

  /** In any run a worker that holds the run mutex and waits for the flow mutex is stopping a
      recorder that is ready; one that holds the flow mutex and waits for the run mutex is inside an
      OpenDev of a recorder that is not; the two never exist together. */
  lemma {:induction false} LockOrders(tr: seq<State>, i: nat, t: nat, u: nat)
    requires Run(tr) && i < |tr| && !tr[i].ctl.nested && t < |tr[i].workers| && u < |tr[i].workers|
    ensures var s := tr[i]; var (w, v) := (s.workers[t], s.workers[u]);
      && (HoldsRun(w) && WantsFlow(w) ==> s.ctl.ready && w.Fatally? && w.f == FTerm(TStop(SLockFlow)))
      && (HoldsFlow(w) && WantsRun(w) ==> !s.ctl.ready && w.Fatally? && w.f.FLock? && w.back.Opening?)
      && !(HoldsRun(w) && WantsFlow(w) && HoldsFlow(v) && WantsRun(v))
  {
    hide Run;
    InvOfRun(tr, i);
    var s := tr[i];
    assert WorkOk(s.ctl, s.workers[t]);
    if HoldsFlow(s.workers[t]) && WantsRun(s.workers[t]) {
      FlowHeldBelow(s.ctl, s.workers[t].back);
      BelowIsOpening(s.ctl, s.workers[t].back);
    }
    if HoldsRun(s.workers[t]) && WantsFlow(s.workers[t]) {
      OrdersNeverMeet(s, t, u);
    }
  }

  lemma {:induction false} BelowIsOpening(c: Control, w: Work)
    requires WorkOk(c, w) && Resumable(w) && HoldsFlow(w)
    ensures w.Opening? || w.Fatally?
  {
  }

  /** Two waits in a row end at a worker that waits for nobody. */
  lemma {:induction false} ChainEnds(s: State, t: nat, u: nat, v: nat, x: nat)
    requires Inv(s) && !s.ctl.nested
    requires WaitsFor(s, t, u) && WaitsFor(s, u, v)
    ensures !WaitsFor(s, v, x)
  {
    NeverWaitsForItself(s, u);
    NeverWaitsForItself(s, v);
    if WantsFlow(s.workers[u]) {
      OrdersNeverMeet(s, u, v);
    } else if WantsFlow(s.workers[v]) {
      OrdersNeverMeet(s, v, u);
    }
  }

  lemma {:induction false} NoCycle(s: State, cyc: seq<nat>)
    requires Inv(s) && !s.ctl.nested
    ensures !WaitCycle(s, cyc)
  {
    if WaitCycle(s, cyc) {
      var t, u := cyc[0], cyc[1];
      assert WaitsFor(s, t, u);
      var v := if |cyc| > 2 then cyc[2] else u;
      assert WaitsFor(s, u, v);
      ChainEnds(s, t, u, v, if |cyc| > 3 then cyc[3] else cyc[1]);
    }
  }

  lemma {:induction false} ReentryDeadlocks(s: State)
    requires Inv(s) && s.ctl.nested
    ensures Deadlocked(s)
  {
    var u :| 0 <= u < |s.workers| && Reentered(s.workers[u]);
    ReenteredIsStuck(s, u);
    assert WaitCycle(s, [u, u]);
  }

  /** The workers deadlock exactly when a driver stop call made inside Fatal has reported a USB
      error to the thread that made it. */
  lemma {:induction false} DeadlockIffReentry(tr: seq<State>, i: nat)
    requires Run(tr) && i < |tr|
    ensures Deadlocked(tr[i]) <==> tr[i].ctl.nested
  {
    hide Run;
    InvOfRun(tr, i);
    if tr[i].ctl.nested {
      ReentryDeadlocks(tr[i]);
    } else {
      forall cyc ensures !WaitCycle(tr[i], cyc) {
        NoCycle(tr[i], cyc);
      }
    }
  }

  // ---------------------------------------------------------------- every operation can finish

  function StopRank(p: StopPc): nat
  {
    match p
    case SDone => 1
    case SUnlockBad | SError => 2
    case SDriver(_) => 3
    case SCall => 4
    case SClear => 5
    case SUnlock => 6
    case SCheckDev => 7
    case SLockFlow => 8
    case SReadReady => 9
    case SReadStreaming => 10
  }

  function TermRank(p: TermPc): nat
  {
    match p
    case TDone => 1
    case TNotify => 2
    case TStop(q) => 2 + StopRank(q)
    case TRunFalse => 13
  }

  function FatalRank(p: FatalPc): nat
  {
    match p
    case FUnlock => 1
    case FTerm(q) => 1 + TermRank(q)
    case FSetFatal => 15
    case FSetMsg => 16
    case FCheck => 17
    case FLock => 18
  }

  function OpenRank(p: OpenPc): nat
  {
    match p
    case OUnlock | OUnlockFailed => 1
    case OUsbClose | OReady => 2
    case ONull => 3
    case ODelete => 4
    case OErrText | OUsbText => 20
    case OErrNull | OUsbNull => 21
    case OErrDelete | OUsbDelete => 22
    case OOpenText => 23
    case ODriver(_) => 24
    case OCall => 25
    case OUsbOpen => 26
    case OCheckErr => 27
    case OCheckNew => 28
    case ONew => 29
    case OCheckNull => 30
    case OLock => 31
  }

  function StartRank(p: StartPc): nat
  {
    match p
    case AError | ASet => 1
    case ADriver(_) => 2
    case ACall => 3
    case AReadReady => 4
    case AReadStreaming => 5
  }

  function WatchRank(p: WatchPc): nat
  {
    match p
    case WUnlockExit => 1
    case WStreaming => 19
    case WUnlock => 20
    case WCheck => 21
    case WRelock => 22
    case WSleep => 23
    case WLock => 24
  }

  /** An upper bound on the steps the worker still takes when no driver call reports an error. */
  function WorkRank(w: Work): nat
  {
    match w
    case Idle => 0
    case Opening(p) => OpenRank(p)
    case Starting(p) => StartRank(p)
    case Stopping(p) => StopRank(p)
    case Terminating(p) => TermRank(p)
    case Watching(p) => WatchRank(p)
    case Querying(_, p) => if p.QLock? then 3 else if p.QSend? then 2 else 1
    case Filling(_, p) => if p.LTry? then 3 else if p.LPush? then 2 else 1
    case Fatally(_, p, back) => FatalRank(p) + WorkRank(back)
  }

  lemma {:induction false} OpenRankFalls(c: Control, p: OpenPc, ch: Choice)
    ensures WorkRank(OpenNext(c, p, ch)) < OpenRank(p)
  {
  }

  lemma {:induction false} StopRankFalls(c: Control, p: StopPc, ok: bool)
    requires !p.SDone?
    ensures StopRank(StopNext(c, p, ok)) < StopRank(p)
  {
  }

  lemma {:induction false} FatalRankFalls(c: Control, p: FatalPc, ok: bool)
    requires !p.FUnlock?
    ensures FatalRank(FatalNext(c, p, ok)) < FatalRank(p)
  {
    if p.FTerm? && p.t.TStop? && !p.t.s.SDone? {
      StopRankFalls(c, p.t.s, ok);
    }
  }

  /** No operation of a worker loops. */
  lemma {:induction false} RankFalls(c: Control, w: Work, ch: Choice)
    requires !w.Idle? && !(InDriver(w) && ch.callback)
    ensures WorkRank(WorkNext(c, w, ch)) < WorkRank(w)
  {
    match w
    case Opening(p) => OpenRankFalls(c, p, ch);
    case Stopping(p) => if !p.SDone? { StopRankFalls(c, p, ch.ok); }
    case Terminating(p) => if p.TStop? && !p.s.SDone? { StopRankFalls(c, p.s, ch.ok); }
    case Fatally(_, p, _) => if !p.FUnlock? { FatalRankFalls(c, p, ch.ok); }
    case _ =>
  }

  function Total(ws: seq<Work>): nat {
    if ws == [] then 0 else WorkRank(ws[0]) + Total(ws[1..])
  }

  lemma {:induction false} TotalUpdate(ws: seq<Work>, t: nat, w: Work)
    requires t < |ws|
    ensures Total(ws[t := w]) == Total(ws) - WorkRank(ws[t]) + WorkRank(w)
  {
    if t == 0 {
      assert ws[t := w][1..] == ws[1..];
    } else {
      assert ws[t := w][1..] == ws[1..][t - 1 := w];
      TotalUpdate(ws[1..], t - 1, w);
    }
  }

  /** The worker is at a blocking lock of a mutex that somebody owns. */
  predicate Blocked(s: State, t: nat)
    requires t < |s.workers|
  {
    || (WantsRun(s.workers[t]) && !s.ctl.runOwner.Free?)
    || (WantsFlow(s.workers[t]) && !s.ctl.flowOwner.Free?)
  }

  lemma {:induction false} HolderOf(s: State, t: nat) returns (u: nat)
    requires Inv(s) && t < |s.workers| && Blocked(s, t) && !SinkHoldsFlow(s.sink)
    ensures WaitsFor(s, t, u) && u < |s.workers| && !s.workers[u].Idle?
  {
    u := if WantsRun(s.workers[t]) && !s.ctl.runOwner.Free? then s.ctl.runOwner.tid else s.ctl.flowOwner.tid;
  }

  /** While some worker is busy, some busy worker is not blocked. */
  lemma {:induction false} SomeoneCanGo(s: State, t: nat) returns (r: nat)
    requires Inv(s) && !s.ctl.nested && !SinkHoldsFlow(s.sink)
    requires t < |s.workers| && !s.workers[t].Idle?
    ensures r < |s.workers| && !s.workers[r].Idle? && !Blocked(s, r)
  {
    r := t;
    if Blocked(s, t) {
      var u := HolderOf(s, t);
      r := u;
      if Blocked(s, u) {
        var v := HolderOf(s, u);
        r := v;
        if Blocked(s, v) {
          var x := HolderOf(s, v);
          ChainEnds(s, t, u, v, x);
        }
      }
    }
  }

  function SinkRank(k: Sink): nat {
    if k.pc.CPop? || k.pc.CClear? then 2 else if k.pc.CUnlock? || k.pc.CClearUnlock? then 1 else 0
  }

  predicate AllIdle(s: State)
  {
    && (forall t | 0 <= t < |s.workers| :: s.workers[t].Idle?)
    && s.ctl.runOwner.Free? && s.ctl.flowOwner.Free?
  }

  const QUIET := Choice(false, false, "")

  lemma {:induction false} QuietIsQuiet(c: Control, t: nat, w: Work, ch: Choice)
    requires !ch.callback
    ensures Do(c, Worker(t), WorkInstr(w, ch)).nested == c.nested
  {
  }

  lemma {:induction false} QuietStep(s: State, t: nat)
    requires Inv(s) && !s.ctl.nested && t < |s.workers| && !s.workers[t].Idle? && !Blocked(s, t)
    ensures Enabled(s, Go(t, QUIET))
    ensures var s' := Apply(s, Go(t, QUIET));
      Inv(s') && !s'.ctl.nested && s'.sink == s.sink && Total(s'.workers) < Total(s.workers)
  {
    hide Inv, Do, WorkInstr, WorkNext, WantsRun, WantsFlow;
    var w := s.workers[t];
    QuietIsQuiet(s.ctl, t, w, QUIET);
    InvAfterGo(s, t, QUIET);
    RankFalls(s.ctl, w, QUIET);
    TotalUpdate(s.workers, t, WorkNext(s.ctl, w, QUIET));
  }

  lemma {:induction false} SinkLetsGo(s: State)
    requires Inv(s) && SinkHoldsFlow(s.sink)
    ensures Enabled(s, Consume(QUIET))
    ensures var s' := Apply(s, Consume(QUIET));
      Inv(s') && s'.ctl.nested == s.ctl.nested && s'.workers == s.workers && SinkRank(s'.sink) < SinkRank(s.sink)
  {
    InvAfterConsume(s, QUIET);
  }

  lemma {:induction false} NobodyHolds(s: State)
    requires Inv(s) && !SinkHoldsFlow(s.sink) && forall t | 0 <= t < |s.workers| :: s.workers[t].Idle?
    ensures AllIdle(s)
  {
  }

  /** Unless a stop call re-entered Fatal, every state can be run on, without beginning anything
      new, until all workers are idle and both mutexes are free. */
  lemma {:induction false} CanDrain(s: State) returns (tr: seq<State>)
    requires Inv(s) && !s.ctl.nested
    ensures |tr| > 0 && tr[0] == s && Steps(tr) && AllIdle(tr[|tr| - 1])
    decreases Total(s.workers) + SinkRank(s.sink)
  {
    hide Inv, Enabled, Apply, AllIdle, Next;
    if SinkHoldsFlow(s.sink) {
      SinkLetsGo(s);
      var rest := CanDrain(Apply(s, Consume(QUIET)));
      tr := Prepend(s, Consume(QUIET), rest);
    } else if exists t :: 0 <= t < |s.workers| && !s.workers[t].Idle? {
      var t: nat :| t < |s.workers| && !s.workers[t].Idle?;
      t := SomeoneCanGo(s, t);
      QuietStep(s, t);
      var rest := CanDrain(Apply(s, Go(t, QUIET)));
      tr := Prepend(s, Go(t, QUIET), rest);
    } else {
      NobodyHolds(s);
      tr := [s];
    }
  }

  /** The same for runs: any run without a re-entry can be extended to one in which every
      operation has finished. */
  lemma {:induction false} EveryOperationCanFinish(tr: seq<State>) returns (tr': seq<State>)
    requires Run(tr) && !tr[|tr| - 1].ctl.nested
    ensures Run(tr') && tr <= tr' && AllIdle(tr'[|tr'| - 1])
  {
    hide Inv, Next, AllIdle, Init;
    InvOfRun(tr, |tr| - 1);
    var rest := CanDrain(tr[|tr| - 1]);
    tr' := tr + rest[1..];
    forall i | 0 < i < |tr'| ensures StepAt(tr', i) {
      if i >= |tr| {
        var k := i - |tr| + 1;
        assert StepAt(rest, k) && tr'[i] == rest[k] && tr'[i - 1] == rest[k - 1];
      } else {
        assert StepAt(tr, i) && tr'[i] == tr[i] && tr'[i - 1] == tr[i - 1];
      }
    }
  }

  /** A step that begins nothing and in which no driver call reports an error. */
  predicate Quiet(a: Action) { a.Consume? || (a.Go? && !a.ch.callback) }

  /** The actions lead through the states. */
  ghost predicate Leads(tr: seq<State>, actions: seq<Action>)
  {
    && |tr| == |actions| + 1
    && forall i | 0 <= i < |actions| :: Enabled(tr[i], actions[i]) && tr[i + 1] == Apply(tr[i], actions[i])
  }

  function WorkerSteps(actions: seq<Action>): nat
  {
    if actions == [] then 0
    else WorkerSteps(actions[..|actions| - 1]) + if actions[|actions| - 1].Go? then 1 else 0
  }

  lemma {:induction false} QuietKeeps(s: State, a: Action)
    requires Inv(s) && !s.ctl.nested && Enabled(s, a) && Quiet(a)
    ensures var s' := Apply(s, a);
      && Inv(s') && !s'.ctl.nested
      && Total(s'.workers) + (if a.Go? then 1 else 0) <= Total(s.workers)
  {
    hide Inv, Do, WorkInstr, WorkNext, SinkNext, SinkMedia, WantsRun, WantsFlow;
    InvAfter(s, a);
    if a.Go? {
      var w := s.workers[a.t];
      QuietIsQuiet(s.ctl, a.t, w, a.ch);
      RankFalls(s.ctl, w, a.ch);
      TotalUpdate(s.workers, a.t, WorkNext(s.ctl, w, a.ch));
    } else {
      SinkIsQuiet(s.ctl, s.sink, a.ch.ok);
    }
  }

  lemma {:induction false} SinkIsQuiet(c: Control, k: Sink, ok: bool)
    ensures Do(c, Consumer, SinkInstr(k, ok)).nested == c.nested
  {
  }

  lemma {:induction false} QuietRunKeeps(tr: seq<State>, actions: seq<Action>)
    requires Leads(tr, actions) && Inv(tr[0]) && !tr[0].ctl.nested && forall a | a in actions :: Quiet(a)
    ensures var last := tr[|actions|];
      Inv(last) && !last.ctl.nested && WorkerSteps(actions) + Total(last.workers) <= Total(tr[0].workers)
    decreases |actions|
  {
    hide Inv, Enabled, Apply, Quiet, Total;
    if actions == [] {
    } else {
      var n := |actions| - 1;
      QuietRunKeeps(tr[..n + 1], actions[..n]);
      assert actions[n] in actions;
      QuietKeeps(tr[n], actions[n]);
    }
  }

  /** However the threads are scheduled, as long as nothing begins and no driver call reports an
      error: the workers take a bounded number of steps, and when none of them can take another,
      all operations have ended or the consumer is inside a critical section, which it can leave. */
  lemma {:induction false} EveryScheduleEnds(tr: seq<State>, actions: seq<Action>)
    requires Leads(tr, actions) && Inv(tr[0]) && !tr[0].ctl.nested && forall a | a in actions :: Quiet(a)
    ensures WorkerSteps(actions) <= Total(tr[0].workers)
    ensures var last := tr[|actions|];
      (forall t, ch | Enabled(last, Go(t, ch)) :: ch.callback) ==>
        AllIdle(last) || (SinkHoldsFlow(last.sink) && Enabled(last, Consume(QUIET)))
  {
    hide Inv, AllIdle, Total;
    QuietRunKeeps(tr, actions);
    var last := tr[|actions|];
    if SinkHoldsFlow(last.sink) {
      SinkLetsGo(last);
    } else if exists t :: 0 <= t < |last.workers| && !last.workers[t].Idle? {
      var t: nat :| t < |last.workers| && !last.workers[t].Idle?;
      t := SomeoneCanGo(last, t);
      QuietStep(last, t);
    } else {
      NobodyHolds(last);
    }
  }

  lemma {:induction false} Prepend(s: State, a: Action, rest: seq<State>) returns (tr: seq<State>)
    requires Enabled(s, a) && |rest| > 0 && rest[0] == Apply(s, a) && Steps(rest)
    ensures tr == [s] + rest && Steps(tr)
  {
    tr := [s] + rest;
    forall i | 0 < i < |tr| ensures StepAt(tr, i) {
      if i > 1 {
        assert StepAt(rest, i - 1) && tr[i] == rest[i - 1] && tr[i - 1] == rest[i - 2];
      }
    }
  }
}
