/**
  A run that deadlocks: one thread opens the device, starts streaming and meets a fatal error;
  the stop call that Fatal makes reports a USB error to the same thread.
*/
module RecorderReentry {
  import opened Option
  import opened RecorderMachine
  import opened RecorderDeadlock

  const OK := Choice(true, false, "")
  const USB_FAILS := Choice(false, true, "")

  lemma {:induction false} Extend(tr: seq<State>, a: Action) returns (tr': seq<State>)
    requires Run(tr) && Enabled(tr[|tr| - 1], a)
    ensures Run(tr') && |tr'| == |tr| + 1 && tr'[|tr|] == Apply(tr[|tr| - 1], a)
  {
    tr' := tr + [Apply(tr[|tr| - 1], a)];
    assert tr'[|tr|] == Apply(tr[|tr| - 1], a);
    forall i | 0 < i < |tr'| ensures StepAt(tr', i) {
      if i == |tr| {
        assert Enabled(tr'[i - 1], a);
      } else {
        assert StepAt(tr, i) && tr'[i] == tr[i] && tr'[i - 1] == tr[i - 1];
      }
    }
  }

  /** The run ends with a single worker at `w` and with these control fields. */
  ghost predicate EndsAt(tr: seq<State>, c: Control, w: Work) {
    Run(tr) && tr[|tr| - 1].ctl == c && tr[|tr| - 1].workers == [w]
  }

  lemma {:induction false} Begun(tr: seq<State>, c: Control, op: Op) returns (tr': seq<State>)
    requires EndsAt(tr, c, Idle) && !op.OpFlow?
    ensures EndsAt(tr', c, OpWork(op))
  {
    tr' := Extend(tr, Begin(0, op));
  }

  lemma {:induction false} Stepped(tr: seq<State>, c: Control, w: Work, ch: Choice) returns (tr': seq<State>)
    requires EndsAt(tr, c, w) && CanStep(c, w)
    ensures EndsAt(tr', Do(c, Worker(0), WorkInstr(w, ch)), WorkNext(c, w, ch))
  {
    tr' := Extend(tr, Go(0, ch));
  }

  predicate CanStep(c: Control, w: Work)
  {
    && !w.Idle? && !w.Filling?
    && (WantsRun(w) ==> c.runOwner.Free?)
    && (WantsFlow(w) ==> c.flowOwner.Free?)
  }

  /** `n` uninterrupted steps of worker 0 in which every call succeeds. */
  function Solo(c: Control, w: Work, n: nat): Option<(Control, Work)>
    decreases n
  {
    if n == 0 then Some((c, w))
    else if !CanStep(c, w) then None
    else Solo(Do(c, Worker(0), WorkInstr(w, OK)), WorkNext(c, w, OK), n - 1)
  }

  lemma {:induction false} SoloRuns(tr: seq<State>, c: Control, w: Work, n: nat) returns (tr': seq<State>)
    requires EndsAt(tr, c, w) && Solo(c, w, n).Some?
    ensures EndsAt(tr', Solo(c, w, n).value.0, Solo(c, w, n).value.1)
    decreases n
  {
    hide WorkNext;
    hide WorkInstr;
    hide Do;
    hide Run;
    hide CanStep;
    if n == 0 {
      tr' := tr;
    } else {
      tr' := Stepped(tr, c, w, OK);
      tr' := SoloRuns(tr', Do(c, Worker(0), WorkInstr(w, OK)), WorkNext(c, w, OK), n - 1);
    }
  }

  /** The control fields of a recorder on which only the first device was ever built. */
  function Ctl(runOwner: Owner, flowOwner: Owner, fatal: bool, msg: string, streaming: bool, ready: bool,
               built: bool): Control
  {
    Control(runOwner, flowOwner, !fatal, fatal, msg, streaming, false, ready,
            if built then Some(0) else None, if built then {0} else {}, false, if built then 1 else 0,
            false, if fatal then 1 else 0, false, [])
  }

  function Start(): Control { Ctl(Free, Free, false, "", false, false, false) }

  function Open(): Control { Ctl(Free, Free, false, "", false, true, true) }

  function OnAir(): Control { Ctl(Free, Free, false, "", true, true, true) }

  lemma {:induction false} SoloStep(c: Control, w: Work, c': Control, w': Work, n: nat)
    requires CanStep(c, w) && Do(c, Worker(0), WorkInstr(w, OK)) == c' && WorkNext(c, w, OK) == w'
    ensures Solo(c, w, n + 1) == Solo(c', w', n)
  {
  }

  lemma {:induction false} SoloEnd(c: Control, w: Work)
    ensures Solo(c, w, 0) == Some((c, w))
  {
  }

  lemma {:induction false} SoloOpen()
    ensures Solo(Start(), OpWork(OpOpen), 10) == Some((Open(), Idle))
  {
    hide Solo, Do;
    var me := Worker(0);
    var held := Ctl(Free, me, false, "", false, false, false);
    var built := Ctl(Free, me, false, "", false, false, true);
    assert {} + {0} == {0};
    DoLockFlow(Start());
    DoNothing(held);
    DoNewDev(held);
    DoNothing(built);
    SoloStep(Start(), Opening(OLock), held, Opening(OCheckNull), 9);
    SoloStep(held, Opening(OCheckNull), held, Opening(ONew), 8);
    SoloStep(held, Opening(ONew), built, Opening(OCheckNew), 7);
    SoloStep(built, Opening(OCheckNew), built, Opening(OCheckErr), 6);
    SoloStep(built, Opening(OCheckErr), built, Opening(OUsbOpen), 5);
    SoloStep(built, Opening(OUsbOpen), built, Opening(OCall), 4);
    SoloOpenDriver(built);
  }

  lemma {:induction false} SoloOpenDriver(built: Control)
    requires built == Ctl(Free, Worker(0), false, "", false, false, true)
    ensures Solo(built, Opening(OCall), 4) == Some((Open(), Idle))
  {
    hide Solo, Do;
    var ready := Ctl(Free, Worker(0), false, "", false, true, true);
    DoNothing(built);
    DoSetReady(built);
    DoUnlockFlow(ready);
    SoloStep(built, Opening(OCall), built, Opening(ODriver(0)), 3);
    SoloStep(built, Opening(ODriver(0)), built, Opening(OReady), 2);
    SoloStep(built, Opening(OReady), ready, Opening(OUnlock), 1);
    SoloStep(ready, Opening(OUnlock), Open(), Idle, 0);
    SoloEnd(Open(), Idle);
  }

  lemma {:induction false} SoloStart()
    ensures Solo(Open(), OpWork(OpStart), 5) == Some((OnAir(), Idle))
  {
    hide Solo, Do;
    DoNothing(Open());
    DoSetStreaming(Open(), true);
    SoloStep(Open(), Starting(AReadStreaming), Open(), Starting(AReadReady), 4);
    SoloStep(Open(), Starting(AReadReady), Open(), Starting(ACall), 3);
    SoloStep(Open(), Starting(ACall), Open(), Starting(ADriver(0)), 2);
    SoloStep(Open(), Starting(ADriver(0)), Open(), Starting(ASet), 1);
    SoloStep(Open(), Starting(ASet), OnAir(), Idle, 0);
    SoloEnd(OnAir(), Idle);
  }

  function InStop(msg: string, p: StopPc): Work { Fatally(msg, FTerm(TStop(p)), Idle) }

  /** What Fatal has done when it calls StopEncoding, and when that calls the driver. */
  function Failed(msg: string, flowOwner: Owner, streaming: bool): Control {
    Ctl(Worker(0), flowOwner, true, msg, streaming, true, true)
  }

  lemma {:induction false} SoloFatal(msg: string)
    ensures Solo(OnAir(), OpWork(OpFatal(msg)), 12) == Some((Failed(msg, Free, false), InStop(msg, SDriver(0))))
  {
    hide Solo, Do;
    var held := Ctl(Worker(0), Free, false, "", true, true, true);
    DoLockRun(OnAir());
    DoNothing(held);
    SoloStep(OnAir(), Fatally(msg, FLock, Idle), held, Fatally(msg, FCheck, Idle), 11);
    SoloStep(held, Fatally(msg, FCheck, Idle), held, Fatally(msg, FSetMsg, Idle), 10);
    SoloMark(msg, held);
    SoloStop(msg);
  }

  lemma {:induction false} SoloMark(msg: string, held: Control)
    requires held == Ctl(Worker(0), Free, false, "", true, true, true)
    ensures Solo(held, Fatally(msg, FSetMsg, Idle), 10) == Solo(Failed(msg, Free, true), InStop(msg, SReadStreaming), 7)
  {
    hide Solo, Do;
    var told := held.(fatalMsg := msg, msgWrites := 1);
    DoSetMsg(held, msg);
    DoSetFatal(told);
    DoSetRunFalse(told.(fatal := true));
    SoloStep(held, Fatally(msg, FSetMsg, Idle), told, Fatally(msg, FSetFatal, Idle), 9);
    SoloStep(told, Fatally(msg, FSetFatal, Idle), told.(fatal := true), Fatally(msg, FTerm(TRunFalse), Idle), 8);
    SoloStep(told.(fatal := true), Fatally(msg, FTerm(TRunFalse), Idle),
             Failed(msg, Free, true), InStop(msg, SReadStreaming), 7);
  }

  lemma {:induction false} SoloStop(msg: string)
    ensures Solo(Failed(msg, Free, true), InStop(msg, SReadStreaming), 7)
      == Some((Failed(msg, Free, false), InStop(msg, SDriver(0))))
  {
    hide Solo, Do;
    var c, held := Failed(msg, Free, true), Failed(msg, Worker(0), true);
    DoNothing(c);
    DoNothing(held);
    DoLockFlow(c);
    DoUnlockFlow(held);
    SoloStep(c, InStop(msg, SReadStreaming), c, InStop(msg, SReadReady), 6);
    SoloStep(c, InStop(msg, SReadReady), c, InStop(msg, SLockFlow), 5);
    SoloStep(c, InStop(msg, SLockFlow), held, InStop(msg, SCheckDev), 4);
    SoloStep(held, InStop(msg, SCheckDev), held, InStop(msg, SUnlock), 3);
    SoloStep(held, InStop(msg, SUnlock), c, InStop(msg, SClear), 2);
    SoloStopDriver(msg);
  }

  lemma {:induction false} SoloStopDriver(msg: string)
    ensures Solo(Failed(msg, Free, true), InStop(msg, SClear), 2)
      == Some((Failed(msg, Free, false), InStop(msg, SDriver(0))))
  {
    hide Solo, Do;
    var c, off := Failed(msg, Free, true), Failed(msg, Free, false);
    DoSetStreaming(c, false);
    DoNothing(off);
    SoloStep(c, InStop(msg, SClear), off, InStop(msg, SCall), 1);
    SoloStep(off, InStop(msg, SCall), off, InStop(msg, SDriver(0)), 0);
    SoloEnd(off, InStop(msg, SDriver(0)));
  }

  lemma {:induction false} GoesOnAir() returns (tr: seq<State>)
    ensures EndsAt(tr, OnAir(), Idle)
  {
    tr := [State(Start(), Media([], 0, [], [], [], [], []), [Idle], Sink(CTop, false, false, [], 0, 0, 0, 0))];
    assert EndsAt(tr, Start(), Idle);
    hide *;
    tr := Begun(tr, Start(), OpOpen);
    SoloOpen();
    tr := SoloRuns(tr, Start(), OpWork(OpOpen), 10);
    tr := Begun(tr, Open(), OpStart);
    SoloStart();
    tr := SoloRuns(tr, Open(), OpWork(OpStart), 5);
  }

  lemma {:induction false} FailsOnAir(msg: string) returns (tr: seq<State>)
    ensures EndsAt(tr, Failed(msg, Free, false), InStop(msg, SDriver(0)))
  {
    hide *;
    tr := GoesOnAir();
    tr := Begun(tr, OnAir(), OpFatal(msg));
    SoloFatal(msg);
    tr := SoloRuns(tr, OnAir(), OpWork(OpFatal(msg)), 12);
  }

  lemma {:induction false} Reenters(c: Control, msg: string)
    ensures Do(c, Worker(0), WorkInstr(InStop(msg, SDriver(0)), USB_FAILS)).nested
  {
  }

  /** One thread is enough: a fatal error while streaming, and a stop call that reports a USB error. */
  lemma {:induction false} ReentryHappens(msg: string) returns (tr: seq<State>)
    ensures Run(tr) && Deadlocked(tr[|tr| - 1])
  {
    hide Do, WorkInstr, WorkNext, Steps, Init, Deadlocked;
    tr := FailsOnAir(msg);
    tr := Stepped(tr, Failed(msg, Free, false), InStop(msg, SDriver(0)), USB_FAILS);
    Reenters(Failed(msg, Free, false), msg);
    DeadlockIffReentry(tr, |tr| - 1);
  }
}
