/**
  What every step of the recorder keeps.  `WorkOk` says what a worker may rely on at each program
  counter; `Rely` says what the steps of the others leave alone.  A step keeps the invariant
  because it establishes `WorkOk` for the worker that moved and stays within `Rely` for the rest.
*/
module RecorderInvariant {
  import opened Option
  import opened RecorderMachine

  // ---------------------------------------------------------------- the invariant

  predicate StopOk(c: Control, p: StopPc)
  {
    match p
    case SReadStreaming | SDone => true
    case SUnlockBad => false
    case SDriver(d) => c.ready && c.dev == Some(d)
    case _ => c.ready
  }

  predicate TermOk(c: Control, p: TermPc) {
    (!p.TRunFalse? ==> !c.run) && (p.TStop? ==> StopOk(c, p.s))
  }

  predicate FatalOk(c: Control, msg: string, p: FatalPc)
  {
    match p
    case FLock => true
    case FCheck => true
    case FSetMsg => !c.fatal
    case FSetFatal => !c.fatal && c.fatalMsg == msg
    case FTerm(q) => c.fatal && TermOk(c, q)
    case FUnlock => c.fatal && !c.run
  }

  predicate OpenOk(c: Control, p: OpenPc)
  {
    match p
    case OLock | OCheckNull | OUnlock => true
    case ONew => !c.ready && c.dev.None?
    case OCheckNew | OCheckErr | OUsbOpen | OUsbDelete | OCall | OOpenText | ODelete => !c.ready && Live(c)
    case ODriver(d) => !c.ready && Live(c) && c.dev.value == d
    case OUsbNull | ONull => !c.ready && c.live == {}
    case OUsbText | OUsbClose | OUnlockFailed => !c.ready && c.dev.None?
    case OReady => !c.ready && Live(c)
    case OErrDelete | OErrNull | OErrText => false
  }

  predicate StartOk(c: Control, p: StartPc)
  {
    match p
    case AReadStreaming | AReadReady => true
    case ADriver(d) => c.ready && c.dev == Some(d)
    case _ => c.ready
  }

  /** Where `Fatal` may have been called from. */
  predicate Resumable(w: Work) {
    w.Idle? || InDriver(w) || w == Opening(OUnlockFailed)
  }

  predicate WorkOk(c: Control, w: Work)
  {
    match w
    case Opening(p) => OpenOk(c, p)
    case Starting(p) => StartOk(c, p)
    case Stopping(p) => StopOk(c, p)
    case Terminating(p) => TermOk(c, p)
    case Fatally(msg, p, back) =>
      && FatalOk(c, msg, p) && WorkOk(c, back) && Resumable(back)
      && (back.Fatally? ==> p.FLock? && c.nested)
    case _ => true
  }

  /** The lifecycle of the device. */
  predicate Lifecycle(c: Control)
  {
    && (c.streaming ==> c.ready)
    && (c.ready ==> Live(c))
    && !c.crashed
    && !c.devErr
    && c.live <= (if c.dev.Some? then {c.dev.value} else {})
  }

  /** Each mutex has exactly the owner whose program counter says so. */
  predicate Owned(c: Control, ws: seq<Work>, k: Sink)
  {
    && (forall t | 0 <= t < |ws| :: (c.runOwner == Worker(t)) == HoldsRun(ws[t]))
    && (forall t | 0 <= t < |ws| :: (c.flowOwner == Worker(t)) == HoldsFlow(ws[t]))
    && (c.runOwner.Worker? ==> c.runOwner.tid < |ws|)
    && (c.flowOwner.Worker? ==> c.flowOwner.tid < |ws|)
    && (c.flowOwner == Consumer) == SinkHoldsFlow(k)
    && c.runOwner != Consumer
  }

  /** The owner of m_run_mutex satisfies `p`, as the pc of its Fatal call. */
  predicate RunOwnerAt(c: Control, ws: seq<Work>, p: FatalPc) {
    c.runOwner.Worker? && c.runOwner.tid < |ws| && AtFatal(ws[c.runOwner.tid], p)
  }

  predicate AtFatal(w: Work, p: FatalPc) { w.Fatally? && w.f == p }

  /** m_fatal and m_run: the flag and its message are set once, under the run mutex. */
  predicate FatalState(c: Control, ws: seq<Work>)
  {
    && (c.fatal && c.run ==> RunOwnerAt(c, ws, FTerm(TRunFalse)))
    && c.msgWrites == (if c.fatal || RunOwnerAt(c, ws, FSetFatal) then 1 else 0)
    && (c.nested ==> exists t :: 0 <= t < |ws| && Reentered(ws[t]))
  }

  /** `Fatal` was entered a second time by the thread that is still inside it. */
  predicate Reentered(w: Work) { w.Fatally? && w.back.Fatally? }

  /** The answers to the three guarded queries: errors agree and never stop, Open is final. */
  predicate RepliesOk(c: Control)
  {
    && (forall i | 0 <= i < |c.replies| && c.replies[i].Err? :: c.fatal && c.replies[i].msg == c.fatalMsg)
    && (forall i | 0 <= i < |c.replies| && c.replies[i].Fine? && c.replies[i].open :: c.ready)
    && (forall i, j | 0 <= i < j < |c.replies| :: Follows(c.replies[i], c.replies[j]))
  }

  predicate Follows(r: Reply, later: Reply)
  {
    && (r.Err? ==> later == r)
    && (r.Fine? && r.open && later.Fine? ==> later.open)
  }

  ghost predicate Inv(s: State)
  {
    && Lifecycle(s.ctl)
    && Owned(s.ctl, s.workers, s.sink)
    && (forall t | 0 <= t < |s.workers| :: WorkOk(s.ctl, s.workers[t]))
    && FatalState(s.ctl, s.workers)
    && RepliesOk(s.ctl)
  }

  // ---------------------------------------------------------------- instructions

  /** What an instruction may assume and still keep the lifecycle and the promises to the others. */
  predicate Permitted(c: Control, me: Owner, i: Instr)
  {
    match i
    case LockRun => c.runOwner.Free?
    case UnlockRun => c.runOwner == me
    case LockFlow => c.flowOwner.Free?
    case UnlockFlow => c.flowOwner == me
    case Deref => Live(c)
    case NewDev => c.flowOwner == me && !c.ready && c.dev.None?
    case FreeDev => c.flowOwner == me && !c.ready && Live(c)
    case NullDev => c.flowOwner == me && !c.ready && c.live == {}
    case SetReady => c.flowOwner == me && Live(c)
    case SetStreaming(on) => on ==> c.ready
    case SetMsg(_) | SetFatal => c.runOwner == me && !c.fatal
    case _ => true
  }

  lemma {:induction false} LifecycleKept(c: Control, me: Owner, i: Instr)
    requires Lifecycle(c) && Permitted(c, me, i)
    ensures Lifecycle(Do(c, me, i))
  {
    if i.FreeDev? {
      assert c.live - {c.dev.value} == {};
    }
  }

  /** What a step by another thread leaves alone, for a thread that does or does not hold a mutex. */
  predicate Rely(c: Control, c': Control, holdsRun: bool, holdsFlow: bool)
  {
    && (c'.run ==> c.run)
    && (c.fatal ==> c'.fatal && c'.fatalMsg == c.fatalMsg)
    && (c.nested ==> c'.nested)
    && (c.ready ==> c'.ready && c'.dev == c.dev && c'.live == c.live)
    && (holdsFlow ==> c'.ready == c.ready && c'.dev == c.dev && c'.live == c.live)
    && (holdsRun ==> c'.fatal == c.fatal && c'.fatalMsg == c.fatalMsg)
  }

  lemma {:induction false} RelyKept(c: Control, me: Owner, i: Instr)
    requires Permitted(c, me, i)
    ensures Rely(c, Do(c, me, i), c.runOwner != me, c.flowOwner != me)
  {
  }

  /** The promises to one worker survive the steps of the others. */
  lemma {:induction false} Stable(c: Control, c': Control, w: Work, hr: bool, hf: bool)
    requires WorkOk(c, w)
    requires HoldsRun(w) ==> hr
    requires HoldsFlow(w) ==> hf
    requires Rely(c, c', hr, hf)
    ensures WorkOk(c', w)
  {
    if w.Fatally? {
      Stable(c, c', w.back, hr, hf);
    }
  }

  // ---------------------------------------------------------------- one step of one worker

  predicate CanGo(c: Control, t: nat, w: Work, ch: Choice)
  {
    && Lifecycle(c) && WorkOk(c, w)
    && (c.runOwner == Worker(t)) == HoldsRun(w)
    && (c.flowOwner == Worker(t)) == HoldsFlow(w)
    && (WantsRun(w) ==> c.runOwner.Free?)
    && (WantsFlow(w) ==> c.flowOwner.Free?)
    && (w.Filling? && w.l.LTry? && ch.ok ==> c.flowOwner.Free?)
    && (AtFatal(w, FCheck) && c.fatal ==> !c.run)
  }

  /** A pre-ready OpenDev and a StopEncoding that has seen streaming exclude each other. */
  lemma {:induction false} FlowHeldBelow(c: Control, w: Work)
    requires WorkOk(c, w) && Resumable(w) && HoldsFlow(w)
    ensures !c.ready
  {
  }

  lemma {:induction false} PermittedAt(c: Control, t: nat, w: Work, ch: Choice)
    requires CanGo(c, t, w, ch)
    ensures Permitted(c, Worker(t), WorkInstr(w, ch))
  {
    if w.Fatally? && HoldsFlow(w.back) {
      FlowHeldBelow(c, w.back);
    }
  }

  /** The program counter after the step tells which mutexes the worker then owns. */
  lemma {:induction false} HoldsRunAfter(c: Control, t: nat, w: Work, ch: Choice)
    requires CanGo(c, t, w, ch)
    ensures (Do(c, Worker(t), WorkInstr(w, ch)).runOwner == Worker(t)) == HoldsRun(WorkNext(c, w, ch))
  {
  }

  lemma {:induction false} HoldsFlowAfterFatal(c: Control, t: nat, w: Work, ch: Choice)
    requires CanGo(c, t, w, ch) && w.Fatally? && !(InDriver(w) && ch.callback)
    ensures (Do(c, Worker(t), WorkInstr(w, ch)).flowOwner == Worker(t)) == HoldsFlow(WorkNext(c, w, ch))
  {
    if HoldsFlow(w.back) {
      FlowHeldBelow(c, w.back);
    }
  }

  lemma {:induction false} HoldsFlowAfterOpen(c: Control, t: nat, p: OpenPc, ch: Choice)
    requires OpenHoldsFlow(p) ==> c.flowOwner == Worker(t)
    ensures (Do(c, Worker(t), OpenInstr(p)).flowOwner == Worker(t)) == HoldsFlow(OpenNext(c, p, ch))
  {
  }

  lemma {:induction false} HoldsFlowAfterStop(c: Control, t: nat, p: StopPc, ok: bool)
    requires (c.flowOwner == Worker(t)) == StopHoldsFlow(p)
    ensures (Do(c, Worker(t), StopInstr(p)).flowOwner == Worker(t)) == StopHoldsFlow(StopNext(c, p, ok))
  {
  }

  lemma {:induction false} HoldsFlowAfterWork(c: Control, t: nat, w: Work, ch: Choice)
    requires CanGo(c, t, w, ch) && !(InDriver(w) && ch.callback)
    ensures (Do(c, Worker(t), WorkInstr(w, ch)).flowOwner == Worker(t)) == HoldsFlow(WorkNext(c, w, ch))
  {
    hide FatalInstr, FatalNext, OpenInstr, OpenNext, OpenHoldsFlow, WorkOk, Lifecycle, AtFatal;
    match w
    case Fatally(_, _, _) => HoldsFlowAfterFatal(c, t, w, ch);
    case Opening(p) => HoldsFlowAfterOpen(c, t, p, ch);
    case Stopping(p) => if !p.SDone? { HoldsFlowAfterStop(c, t, p, ch.ok); }
    case Terminating(p) => if p.TStop? && !p.s.SDone? { HoldsFlowAfterStop(c, t, p.s, ch.ok); }
    case _ =>
  }

  lemma {:induction false} HoldsFlowAfter(c: Control, t: nat, w: Work, ch: Choice)
    requires CanGo(c, t, w, ch)
    ensures (Do(c, Worker(t), WorkInstr(w, ch)).flowOwner == Worker(t)) == HoldsFlow(WorkNext(c, w, ch))
  {
    if !(InDriver(w) && ch.callback) {
      HoldsFlowAfterWork(c, t, w, ch);
    }
  }

  lemma {:induction false} StopOkAfter(c: Control, t: nat, p: StopPc, ok: bool)
    requires Lifecycle(c) && StopOk(c, p)
    ensures StopOk(Do(c, Worker(t), StopInstr(p)), StopNext(c, p, ok))
  {
  }

  lemma {:induction false} TermOkAfter(c: Control, t: nat, p: TermPc, ok: bool)
    requires Lifecycle(c) && TermOk(c, p)
    ensures TermOk(Do(c, Worker(t), TermInstr(p)), TermNext(c, p, ok))
    ensures !Do(c, Worker(t), TermInstr(p)).run
  {
    if p.TStop? {
      StopOkAfter(c, t, p.s, ok);
    }
  }

  lemma {:induction false} FatalOkAfter(c: Control, t: nat, msg: string, p: FatalPc, ok: bool)
    requires Lifecycle(c) && FatalOk(c, msg, p) && !p.FUnlock?
    requires p.FCheck? && c.fatal ==> !c.run
    ensures FatalOk(Do(c, Worker(t), FatalInstr(msg, p)), msg, FatalNext(c, p, ok))
  {
    if p.FTerm? {
      TermOkAfter(c, t, p.t, ok);
    }
  }

  lemma {:induction false} OpenOkAfter(c: Control, t: nat, p: OpenPc, ch: Choice)
    requires Lifecycle(c) && OpenOk(c, p)
    ensures WorkOk(Do(c, Worker(t), OpenInstr(p)), OpenNext(c, p, ch))
  {
  }

  lemma {:induction false} StartOkAfter(c: Control, t: nat, p: StartPc, ok: bool)
    requires Lifecycle(c) && StartOk(c, p)
    ensures WorkOk(Do(c, Worker(t), StartInstr(p)), StartNext(c, p, ok))
  {
  }

  lemma {:induction false} FatallyOkAfter(c: Control, t: nat, w: Work, ch: Choice)
    requires CanGo(c, t, w, ch) && w.Fatally? && !(InDriver(w) && ch.callback)
    ensures WorkOk(Do(c, Worker(t), FatalInstr(w.msg, w.f)), WorkNext(c, w, ch))
  {
    hide Do, StopInstr, FatalOk, FatalNext, HoldsRun, HoldsFlow, WantsRun, WantsFlow;
    BelowIsStable(c, t, w, ch);
    if !w.f.FUnlock? {
      FatalOkAfter(c, t, w.msg, w.f, ch.ok);
    }
    NotReentered(c, t, w, ch);
  }

  /** A worker that has entered Fatal twice cannot go on. */
  lemma {:induction false} NotReentered(c: Control, t: nat, w: Work, ch: Choice)
    requires CanGo(c, t, w, ch) && w.Fatally?
    ensures !w.back.Fatally?
  {
    assert w.back.Fatally? ==> HoldsRun(w.back);
  }

  lemma {:induction false} BelowIsStable(c: Control, t: nat, w: Work, ch: Choice)
    requires CanGo(c, t, w, ch) && w.Fatally? && !(InDriver(w) && ch.callback)
    ensures WorkOk(Do(c, Worker(t), FatalInstr(w.msg, w.f)), w.back)
  {
    Stable(c, Do(c, Worker(t), FatalInstr(w.msg, w.f)), w.back, false, true);
  }

  lemma {:induction false} WorkOkAfter(c: Control, t: nat, w: Work, ch: Choice)
    requires CanGo(c, t, w, ch)
    ensures WorkOk(Do(c, Worker(t), WorkInstr(w, ch)), WorkNext(c, w, ch))
  {
    hide OpenOk, OpenNext, StartOk, StartNext, StopOk, StopNext, TermOk, TermNext, FatalNext;
    var c' := Do(c, Worker(t), WorkInstr(w, ch));
    if InDriver(w) && ch.callback {
      Stable(c, c', w, true, true);
    } else {
      match w
      case Opening(p) => OpenOkAfter(c, t, p, ch);
      case Starting(p) => StartOkAfter(c, t, p, ch.ok);
      case Stopping(p) => StopOkAfter(c, t, p, ch.ok);
      case Terminating(p) => TermOkAfter(c, t, p, ch.ok);
      case Fatally(_, _, _) => FatallyOkAfter(c, t, w, ch);
      case _ =>
    }
  }

  // ---------------------------------------------------------------- one step of the system

  /** The others still own what they owned. */
  lemma {:induction false} OthersOwn(s: State, t: nat, ch: Choice, u: nat)
    requires Inv(s) && Enabled(s, Go(t, ch)) && u < |s.workers| && u != t
    ensures var c' := Do(s.ctl, Worker(t), WorkInstr(s.workers[t], ch));
      && (c'.runOwner == Worker(u)) == HoldsRun(s.workers[u])
      && (c'.flowOwner == Worker(u)) == HoldsFlow(s.workers[u])
      && WorkOk(c', s.workers[u])
  {
    CanGoHere(s, t, ch);
    PermittedAt(s.ctl, t, s.workers[t], ch);
    RelyKept(s.ctl, Worker(t), WorkInstr(s.workers[t], ch));
    Stable(s.ctl, Do(s.ctl, Worker(t), WorkInstr(s.workers[t], ch)), s.workers[u],
           HoldsRun(s.workers[u]), HoldsFlow(s.workers[u]));
  }

  lemma {:induction false} CanGoHere(s: State, t: nat, ch: Choice)
    requires Inv(s) && Enabled(s, Go(t, ch))
    ensures CanGo(s.ctl, t, s.workers[t], ch)
  {
  }

  lemma {:induction false} OwnedAfterGo(s: State, t: nat, ch: Choice)
    requires Inv(s) && Enabled(s, Go(t, ch))
    ensures var s' := Apply(s, Go(t, ch));
      && Owned(s'.ctl, s'.workers, s'.sink)
      && forall u | 0 <= u < |s'.workers| :: WorkOk(s'.ctl, s'.workers[u])
  {
    var s' := Apply(s, Go(t, ch));
    CanGoHere(s, t, ch);
    PermittedAt(s.ctl, t, s.workers[t], ch);
    HoldsRunAfter(s.ctl, t, s.workers[t], ch);
    HoldsFlowAfter(s.ctl, t, s.workers[t], ch);
    WorkOkAfter(s.ctl, t, s.workers[t], ch);
    forall u | 0 <= u < |s'.workers| && u != t
      ensures (s'.ctl.runOwner == Worker(u)) == HoldsRun(s'.workers[u])
      ensures (s'.ctl.flowOwner == Worker(u)) == HoldsFlow(s'.workers[u])
      ensures WorkOk(s'.ctl, s'.workers[u])
    {
      OthersOwn(s, t, ch, u);
    }
  }

  lemma {:induction false} FatalStateAfterGo(s: State, t: nat, ch: Choice)
    requires Inv(s) && Enabled(s, Go(t, ch))
    ensures var s' := Apply(s, Go(t, ch)); FatalState(s'.ctl, s'.workers)
  {
    CanGoHere(s, t, ch);
    PermittedAt(s.ctl, t, s.workers[t], ch);
    RunFlagAfterGo(s, t, ch);
    MsgWritesAfterGo(s, t, ch);
    NestedAfterGo(s, t, ch);
  }

  lemma {:induction false} RunFlagAfterGo(s: State, t: nat, ch: Choice)
    requires Inv(s) && Enabled(s, Go(t, ch))
    ensures var s' := Apply(s, Go(t, ch));
      s'.ctl.fatal && s'.ctl.run ==> RunOwnerAt(s'.ctl, s'.workers, FTerm(TRunFalse))
  {
    CanGoHere(s, t, ch);
    PermittedAt(s.ctl, t, s.workers[t], ch);
  }

  lemma {:induction false} MsgWritesAfterGo(s: State, t: nat, ch: Choice)
    requires Inv(s) && Enabled(s, Go(t, ch))
    ensures var s' := Apply(s, Go(t, ch));
      s'.ctl.msgWrites == (if s'.ctl.fatal || RunOwnerAt(s'.ctl, s'.workers, FSetFatal) then 1 else 0)
  {
    CanGoHere(s, t, ch);
    PermittedAt(s.ctl, t, s.workers[t], ch);
  }

  /** A thread that re-entered Fatal owns the mutex it waits for, so it never moves again. */
  lemma {:induction false} ReenteredIsStuck(s: State, u: nat)
    requires Inv(s) && u < |s.workers| && Reentered(s.workers[u])
    ensures WantsRun(s.workers[u]) && s.ctl.runOwner == Worker(u) && s.ctl.nested
  {
    assert WorkOk(s.ctl, s.workers[u]);
    assert HoldsRun(s.workers[u].back);
  }

  lemma {:induction false} NestedAfterGo(s: State, t: nat, ch: Choice)
    requires Inv(s) && Enabled(s, Go(t, ch))
    ensures var s' := Apply(s, Go(t, ch));
      s'.ctl.nested ==> exists u :: 0 <= u < |s'.workers| && Reentered(s'.workers[u])
  {
    hide Do, WorkInstr, WorkNext, Inv;
    var s' := Apply(s, Go(t, ch));
    if s.ctl.nested {
      NestedIsReentered(s);
      var u :| 0 <= u < |s.workers| && Reentered(s.workers[u]);
      ReenteredIsStuck(s, u);
      assert Reentered(s'.workers[u]);
    } else if s'.ctl.nested {
      NestedByOne(s.ctl, t, s.workers[t], ch);
      assert Reentered(s'.workers[t]);
    }
  }

  lemma {:induction false} NestedIsReentered(s: State)
    requires Inv(s) && s.ctl.nested
    ensures exists u :: 0 <= u < |s.workers| && Reentered(s.workers[u])
  {
  }

  lemma {:induction false} NestedByOne(c: Control, t: nat, w: Work, ch: Choice)
    requires !c.nested && Do(c, Worker(t), WorkInstr(w, ch)).nested
    ensures Reentered(WorkNext(c, w, ch))
  {
  }

  lemma {:induction false} RepliesKept(c: Control, me: Owner, i: Instr)
    requires RepliesOk(c) && Permitted(c, me, i)
    ensures RepliesOk(Do(c, me, i))
  {
  }

  lemma {:induction false} InvAfterGo(s: State, t: nat, ch: Choice)
    requires Inv(s) && Enabled(s, Go(t, ch))
    ensures Inv(Apply(s, Go(t, ch)))
  {
    CanGoHere(s, t, ch);
    PermittedAt(s.ctl, t, s.workers[t], ch);
    LifecycleKept(s.ctl, Worker(t), WorkInstr(s.workers[t], ch));
    RepliesKept(s.ctl, Worker(t), WorkInstr(s.workers[t], ch));
    OwnedAfterGo(s, t, ch);
    FatalStateAfterGo(s, t, ch);
  }

  /** A worker that has just begun holds nothing and relies on nothing. */
  lemma {:induction false} BegunIsOk(c: Control, op: Op)
    ensures WorkOk(c, OpWork(op)) && !HoldsRun(OpWork(op)) && !HoldsFlow(OpWork(op))
    ensures !Reentered(OpWork(op)) && !AtFatal(OpWork(op), FTerm(TRunFalse)) && !AtFatal(OpWork(op), FSetFatal)
  {
  }

  lemma {:induction false} InvAfterBegin(s: State, t: nat, op: Op)
    requires Inv(s) && Enabled(s, Begin(t, op))
    ensures Inv(Apply(s, Begin(t, op)))
  {
    hide WorkOk, HoldsRun, HoldsFlow, OpWork, Lifecycle, RepliesOk;
    var s' := Apply(s, Begin(t, op));
    BegunIsOk(s.ctl, op);
    IdleHoldsNothing(s.workers[t]);
    if op.OpFlow? {
      FlagIsFree(s.ctl, op.xon);
      forall u | 0 <= u < |s.workers| ensures WorkOk(s'.ctl, s'.workers[u]) {
        Stable(s.ctl, s'.ctl, s.workers[u], true, true);
      }
    }
    if s.ctl.nested {
      var u :| 0 <= u < |s.workers| && Reentered(s.workers[u]);
      assert Reentered(s'.workers[u]);
    }
  }

  lemma {:induction false} IdleHoldsNothing(w: Work)
    requires w.Idle?
    ensures !HoldsRun(w) && !HoldsFlow(w) && !Reentered(w)
  {
  }

  /** m_xon is in no invariant. */
  lemma {:induction false} FlagIsFree(c: Control, b: bool)
    requires Lifecycle(c) && RepliesOk(c)
    ensures Lifecycle(c.(xon := b)) && RepliesOk(c.(xon := b))
  {
  }

  lemma {:induction false} SinkHoldsAfter(c: Control, m: Media, k: Sink, ok: bool)
    requires (c.flowOwner == Consumer) == SinkHoldsFlow(k)
    ensures (Do(c, Consumer, SinkInstr(k, ok)).flowOwner == Consumer) == SinkHoldsFlow(SinkNext(c, m, k, ok))
    ensures Do(c, Consumer, SinkInstr(k, ok)) == c.(flowOwner := Do(c, Consumer, SinkInstr(k, ok)).flowOwner)
  {
  }

  lemma {:induction false} FlowOnly(c: Control, f: Owner, ws: seq<Work>)
    ensures var c' := c.(flowOwner := f);
      && Lifecycle(c') == Lifecycle(c) && RepliesOk(c') == RepliesOk(c)
      && FatalState(c', ws) == FatalState(c, ws)
      && Rely(c, c', true, true)
  {
  }

  lemma {:induction false} InvAfterConsume(s: State, ch: Choice)
    requires Inv(s) && Enabled(s, Consume(ch))
    ensures Inv(Apply(s, Consume(ch)))
  {
    hide Do, SinkNext, SinkMedia, WorkOk, Lifecycle, RepliesOk, FatalState, Rely, Owned;
    var s' := Apply(s, Consume(ch));
    OwnedAfterConsume(s, ch);
    FlowOnly(s.ctl, s'.ctl.flowOwner, s.workers);
    forall u | 0 <= u < |s.workers| ensures WorkOk(s'.ctl, s'.workers[u]) {
      Stable(s.ctl, s'.ctl, s.workers[u], true, true);
    }
  }

  lemma {:induction false} OwnedAfterConsume(s: State, ch: Choice)
    requires Inv(s) && Enabled(s, Consume(ch))
    ensures var s' := Apply(s, Consume(ch));
      Owned(s'.ctl, s'.workers, s'.sink) && s'.ctl == s.ctl.(flowOwner := s'.ctl.flowOwner)
  {
    hide Do, SinkNext, SinkMedia, WorkOk, Lifecycle, RepliesOk, FatalState, Owned;
    var s' := Apply(s, Consume(ch));
    SinkOwns(s.ctl, s.workers, s.sink);
    SinkHoldsAfter(s.ctl, s.media, s.sink, ch.ok);
    SinkPermitted(s.ctl, s.sink, ch.ok);
    OwnedByFlow(s.ctl, s'.ctl.flowOwner, s.workers, s.sink, s'.sink);
  }

  lemma {:induction false} SinkOwns(c: Control, ws: seq<Work>, k: Sink)
    requires Owned(c, ws, k)
    ensures (c.flowOwner == Consumer) == SinkHoldsFlow(k)
  {
  }

  /** The flow mutex changes hands between nobody and the consumer. */
  lemma {:induction false} OwnedByFlow(c: Control, f: Owner, ws: seq<Work>, k: Sink, k': Sink)
    requires Owned(c, ws, k) && (f == Consumer) == SinkHoldsFlow(k')
    requires f != c.flowOwner ==> {c.flowOwner, f} <= {Free, Consumer}
    ensures Owned(c.(flowOwner := f), ws, k')
  {
    hide SinkHoldsFlow, HoldsRun, HoldsFlow;
    assert f != c.flowOwner ==> f in {c.flowOwner, f} && c.flowOwner in {c.flowOwner, f};
  }

  lemma {:induction false} SinkPermitted(c: Control, k: Sink, ok: bool)
    requires (c.flowOwner == Consumer) == SinkHoldsFlow(k)
    requires (k.pc.CTryLock? || k.pc.CClearTry?) && ok ==> c.flowOwner.Free?
    ensures var c' := Do(c, Consumer, SinkInstr(k, ok));
      c'.flowOwner != c.flowOwner ==> {c.flowOwner, c'.flowOwner} <= {Free, Consumer}
  {
  }

  lemma {:induction false} InvAfter(s: State, a: Action)
    requires Inv(s) && Enabled(s, a)
    ensures Inv(Apply(s, a))
  {
    match a
    case Begin(t, op) => InvAfterBegin(s, t, op);
    case Go(t, ch) => InvAfterGo(s, t, ch);
    case Consume(ch) => InvAfterConsume(s, ch);
  }

  /** The invariant holds in every state of every run, with any number of workers. */
  lemma {:induction false} InvOfRun(tr: seq<State>, i: nat)
    requires Run(tr) && i < |tr|
    ensures Inv(tr[i])
  {
    if i == 0 {
    } else {
      hide *;
      InvOfRun(tr, i - 1);
      var a := StepBefore(tr, i);
      InvAfter(tr[i - 1], a);
    }
  }
}
