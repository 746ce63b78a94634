/**
  The life of the device and of the first fatal error, over whole runs.
*/
module RecorderLifecycle {
  import opened Option
  import opened RecorderMachine
  import opened RecorderInvariant

  // ---------------------------------------------------------------- what a step never undoes

  /** Facts about the control fields that no step of any thread takes back. */
  predicate Grows(c: Control, c': Control)
  {
    && (c.ready ==> c'.ready && c'.dev == c.dev && c'.live == c.live)
    && (c'.run ==> c.run)
    && (c.fatal ==> c'.fatal && c'.fatalMsg == c.fatalMsg)
    && c.msgWrites <= c'.msgWrites
    && c.replies <= c'.replies
  }

  lemma {:induction false} GrowsByOne(s: State, a: Action)
    requires Inv(s) && Enabled(s, a)
    ensures Grows(s.ctl, Apply(s, a).ctl)
  {
    match a
    case Begin(_, _) =>
    case Go(t, ch) =>
      CanGoHere(s, t, ch);
      PermittedAt(s.ctl, t, s.workers[t], ch);
      RelyKept(s.ctl, Worker(t), WorkInstr(s.workers[t], ch));
    case Consume(ch) =>
  }

  lemma {:induction false} GrowsOverRun(tr: seq<State>, i: nat, j: nat)
    requires Run(tr) && i <= j < |tr|
    ensures Grows(tr[i].ctl, tr[j].ctl)
    decreases j
  {
    hide Run, Inv, Enabled, Apply;
    if i == j {
    } else {
      GrowsOverRun(tr, i, j - 1);
      InvOfRun(tr, j - 1);
      var a := StepBefore(tr, j);
      GrowsByOne(tr[j - 1], a);
    }
  }

  // ---------------------------------------------------------------- the device

  /** Streaming only when ready, ready only with a live device, and no step ever used a null or
      deleted device; a device that is not the current one has been deleted. */
  lemma {:induction false} DeviceIsSafe(tr: seq<State>, i: nat)
    requires Run(tr) && i < |tr|
    ensures var c := tr[i].ctl;
      && (c.streaming ==> c.ready)
      && (c.ready ==> Live(c))
      && !c.crashed
      && forall d | d in c.live :: c.dev == Some(d)
  {
    hide Run;
    InvOfRun(tr, i);
  }

  /** The device on which a worker's start or stop call is running. */
  function CallOn(w: Work): Option<nat>
  {
    match w
    case Starting(ADriver(d)) => Some(d)
    case Stopping(SDriver(d)) => Some(d)
    case Terminating(TStop(SDriver(d))) => Some(d)
    case Fatally(_, FTerm(TStop(SDriver(d))), _) => Some(d)
    case Fatally(_, _, back) => CallOn(back)
    case _ => None
  }

  /** The device of a running start or stop call stays the current, live one until the call returns. */
  lemma {:induction false} CallsSurvive(tr: seq<State>, i: nat, j: nat, t: nat)
    requires Run(tr) && i <= j < |tr| && t < |tr[i].workers| && CallOn(tr[i].workers[t]).Some?
    ensures tr[j].ctl.dev == CallOn(tr[i].workers[t]) && Live(tr[j].ctl)
  {
    hide Run;
    InvOfRun(tr, i);
    GrowsOverRun(tr, i, j);
    CallIsLive(tr[i].ctl, tr[i].workers[t]);
  }

  lemma {:induction false} CallIsLive(c: Control, w: Work)
    requires Lifecycle(c) && WorkOk(c, w) && CallOn(w).Some?
    ensures c.ready && Live(c) && c.dev == CallOn(w)
  {
    if w.Fatally? && !(w.f.FTerm? && w.f.t.TStop? && w.f.t.s.SDriver?) {
      CallIsLive(c, w.back);
    }
  }

  /** The branches for a failed `new`, for a device with `m_err` set and for a ready recorder
      without a device are dead. */
  predicate AtDeadBranch(c: Control, w: Work)
  {
    match w
    case Opening(p) => p.OErrDelete? || p.OErrNull? || p.OErrText? || (p.OCheckNew? && c.dev.None?)
    case Stopping(p) => p.SUnlockBad?
    case Terminating(p) => p == TStop(SUnlockBad)
    case Fatally(_, p, back) => p == FTerm(TStop(SUnlockBad)) || AtDeadBranch(c, back)
    case _ => false
  }

  lemma {:induction false} NotAtDeadBranch(c: Control, w: Work)
    requires WorkOk(c, w)
    ensures !AtDeadBranch(c, w)
  {
    if w.Fatally? {
      NotAtDeadBranch(c, w.back);
    }
  }

  lemma {:induction false} DeadBranchesAreDead(tr: seq<State>, i: nat, t: nat)
    requires Run(tr) && i < |tr| && t < |tr[i].workers|
    ensures !AtDeadBranch(tr[i].ctl, tr[i].workers[t])
  {
    hide Run;
    InvOfRun(tr, i);
    NotAtDeadBranch(tr[i].ctl, tr[i].workers[t]);
  }

  // ---------------------------------------------------------------- retrying a failed open

  /** The worker is between `new HauppaugeDev` and the end of the same OpenDev. */
  predicate Building(w: Work)
  {
    match w
    case Opening(p) => !(p.OLock? || p.OCheckNull? || p.ONew? || p.OUnlock?)
    case Fatally(_, _, back) => Building(back)
    case _ => false
  }

  /** A device that is not ready belongs to the OpenDev that is building it. */
  predicate Underway(s: State)
  {
    s.ctl.dev.Some? && !s.ctl.ready ==>
      && s.ctl.flowOwner.Worker? && s.ctl.flowOwner.tid < |s.workers|
      && Building(s.workers[s.ctl.flowOwner.tid])
  }

  lemma {:induction false} UnderwayByGo(s: State, t: nat, ch: Choice)
    requires Inv(s) && Enabled(s, Go(t, ch)) && Underway(s)
    ensures Underway(Apply(s, Go(t, ch)))
  {
    CanGoHere(s, t, ch);
    PermittedAt(s.ctl, t, s.workers[t], ch);
    HoldsFlowAfter(s.ctl, t, s.workers[t], ch);
  }

  lemma {:induction false} UnderwayByOne(s: State, a: Action)
    requires Inv(s) && Enabled(s, a) && Underway(s)
    ensures Underway(Apply(s, a))
  {
    if a.Go? {
      UnderwayByGo(s, a.t, a.ch);
    }
  }

  lemma {:induction false} UnderwayOfRun(tr: seq<State>, i: nat)
    requires Run(tr) && i < |tr|
    ensures Underway(tr[i])
  {
    if i == 0 {
    } else {
      hide *;
      UnderwayOfRun(tr, i - 1);
      InvOfRun(tr, i - 1);
      var a := StepBefore(tr, i);
      UnderwayByOne(tr[i - 1], a);
    }
  }

  /** OpenDev returns without trying exactly when the recorder is ready: a failed open leaves
      nothing behind that would stop the next attempt. */
  lemma {:induction false} FailedOpenCanBeRetried(tr: seq<State>, i: nat, t: nat)
    requires Run(tr) && i < |tr| && t < |tr[i].workers| && tr[i].workers[t] == Opening(OCheckNull)
    ensures tr[i].ctl.dev.Some? <==> tr[i].ctl.ready
  {
    hide Run;
    UnderwayOfRun(tr, i);
    InvOfRun(tr, i);
  }

  // ---------------------------------------------------------------- the first fatal error

  /** m_fatal_msg is assigned at most once, and while the run mutex is free a fatal recorder has
      stopped running. */
  lemma {:induction false} FatalOnce(tr: seq<State>, i: nat)
    requires Run(tr) && i < |tr|
    ensures tr[i].ctl.msgWrites <= 1
    ensures tr[i].ctl.runOwner.Free? && tr[i].ctl.fatal ==> !tr[i].ctl.run
  {
    hide Run;
    InvOfRun(tr, i);
  }

  /** m_run never becomes true again, m_ready never false, and the fatal message stays. */
  lemma {:induction false} FlagsAreFinal(tr: seq<State>, i: nat, j: nat)
    requires Run(tr) && i <= j < |tr|
    ensures !tr[i].ctl.run ==> !tr[j].ctl.run
    ensures tr[i].ctl.ready ==> tr[j].ctl.ready && tr[j].ctl.dev == tr[i].ctl.dev
    ensures tr[i].ctl.fatal ==> tr[j].ctl.fatal && tr[j].ctl.fatalMsg == tr[i].ctl.fatalMsg
  {
    hide Run;
    GrowsOverRun(tr, i, j);
  }

  /** Once one of APIVersion?, Version? and IsOpen? answers with the fatal error, all later ones
      give the same message, and that message is the one of the first fatal error; once IsOpen?
      says open it never again says otherwise. */
  lemma {:induction false} RepliesAgree(tr: seq<State>, i: nat, j: nat, m: nat, n: nat)
    requires Run(tr) && i <= j < |tr| && m < |tr[i].ctl.replies| && m < n < |tr[j].ctl.replies|
    ensures tr[j].ctl.replies[m] == tr[i].ctl.replies[m]
    ensures Follows(tr[j].ctl.replies[m], tr[j].ctl.replies[n])
    ensures tr[j].ctl.replies[m].Err? ==> tr[j].ctl.replies[m].msg == tr[j].ctl.fatalMsg
    ensures tr[j].ctl.replies[n].Err? ==> tr[j].ctl.replies[n].msg == tr[j].ctl.fatalMsg
  {
    hide Run;
    GrowsOverRun(tr, i, j);
    InvOfRun(tr, j);
  }
}
