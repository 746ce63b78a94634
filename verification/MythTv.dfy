/**
  The object MythTV with its fields and methods, MythTV.cpp:63-225, run by a single thread that
  nobody interrupts.  Each method is proved to take the object exactly where its program in the
  step machine of RecorderMachine takes the same fields, one statement for one instruction; what
  interruptions can do is the subject of the machine.
*/
module MythTv {
  import opened Option
  import opened RecorderMachine
  import opened RecorderInvariant
  import opened RecorderDeadlock

  /** How the calls into the driver and libusb end, and their error text. */
  datatype Env = Env(usbOpens: bool, devOpens: bool, starts: bool, stops: bool, text: string)

  function Pick(e: Env, w: Work): Choice
  {
    match w
    case Opening(OUsbOpen) => Choice(e.usbOpens, false, e.text)
    case Opening(_) => Choice(e.devOpens, false, e.text)
    case Starting(_) => Choice(e.starts, false, e.text)
    case _ => Choice(e.stops, false, e.text)
  }

  /** Where the machine ends when worker 0 runs from `w` without interruption; None if it blocks. */
  function Settle(c: Control, w: Work, e: Env): Option<Control>
    decreases WorkRank(w)
  {
    if w.Idle? then Some(c)
    else if (WantsRun(w) && !c.runOwner.Free?) || (WantsFlow(w) && !c.flowOwner.Free?) then None
    else
      RankFalls(c, w, Pick(e, w));
      Settle(Do(c, Worker(0), WorkInstr(w, Pick(e, w))), WorkNext(c, w, Pick(e, w)), e)
  }

  lemma {:induction false} SettleStep(c: Control, w: Work, c': Control, w': Work, e: Env)
    requires !w.Idle? && (WantsRun(w) ==> c.runOwner.Free?) && (WantsFlow(w) ==> c.flowOwner.Free?)
    requires c' == Do(c, Worker(0), WorkInstr(w, Pick(e, w))) && w' == WorkNext(c, w, Pick(e, w))
    ensures Settle(c, w, e) == Settle(c', w', e)
  {
  }

  /** Who called StopEncoding or Terminate. */
  datatype Caller = Direct | FromTerminate | FromFatal(msg: string, back: Work)

  function AtStop(k: Caller, p: StopPc): Work
  {
    match k
    case Direct => Stopping(p)
    case FromTerminate => Terminating(TStop(p))
    case FromFatal(msg, back) => Fatally(msg, FTerm(TStop(p)), back)
  }

  function AtTerm(k: Caller, p: TermPc): Work {
    if k.FromFatal? then Fatally(k.msg, FTerm(p), k.back) else Terminating(p)
  }

  /** One instruction of StopEncoding, whoever called it. */
  lemma {:induction false} StopMoves(c: Control, k: Caller, p: StopPc, e: Env)
    requires !p.SDone? && (p.SLockFlow? ==> c.flowOwner.Free?)
    ensures Settle(c, AtStop(k, p), e)
      == Settle(Do(c, Worker(0), StopInstr(p)), AtStop(k, StopNext(c, p, e.stops)), e)
  {
    hide Settle, Do, StopInstr, StopNext;
    SettleStep(c, AtStop(k, p), Do(c, Worker(0), StopInstr(p)), AtStop(k, StopNext(c, p, e.stops)), e);
  }

  /** Lines 186-210: the flow mutex is taken and given back. */
  lemma {:induction false} StopSettles(c: Control, k: Caller, e: Env)
    requires Lifecycle(c) && c.streaming && c.flowOwner.Free?
    ensures Settle(c, AtStop(k, SReadStreaming), e) == Settle(c, AtStop(k, SClear), e)
  {
    hide Settle, AtStop, Do;
    var held := c.(flowOwner := Worker(0));
    DoNothing(c);
    DoNothing(held);
    DoLockFlow(c);
    DoUnlockFlow(held);
    StopMoves(c, k, SReadStreaming, e);
    StopMoves(c, k, SReadReady, e);
    StopMoves(c, k, SLockFlow, e);
    StopMoves(held, k, SCheckDev, e);
    StopMoves(held, k, SUnlock, e);
  }

  /** Lines 212-224: streaming ends and the driver stops, or not. */
  lemma {:induction false} StopCallSettles(c: Control, k: Caller, e: Env)
    requires Lifecycle(c) && c.ready
    ensures Settle(c, AtStop(k, SClear), e) == Settle(c.(streaming := false), AtStop(k, SDone), e)
  {
    hide Settle, AtStop, Do;
    var c' := c.(streaming := false);
    DoSetStreaming(c, false);
    DoNothing(c');
    StopMoves(c, k, SClear, e);
    StopMoves(c', k, SCall, e);
    StopMoves(c', k, SDriver(c.dev.value), e);
    if !e.stops {
      StopMoves(c', k, SError, e);
    }
  }

  lemma {:induction false} StopAtOnce(c: Control, k: Caller, e: Env)
    requires !c.streaming
    ensures Settle(c, AtStop(k, SReadStreaming), e) == Settle(c, AtStop(k, SDone), e)
  {
    hide Settle, AtStop, Do;
    DoNothing(c);
    StopMoves(c, k, SReadStreaming, e);
  }

  /** One instruction of Terminate outside StopEncoding. */
  lemma {:induction false} TermMoves(c: Control, k: Caller, p: TermPc, e: Env)
    requires !k.Direct? && (p.TRunFalse? || p == TStop(SDone) || p.TNotify?)
    ensures Settle(c, AtTerm(k, p), e) == Settle(Do(c, Worker(0), TermInstr(p)), AtTerm(k, TermNext(c, p, e.stops)), e)
  {
    hide Settle, Do;
    SettleStep(c, AtTerm(k, p), Do(c, Worker(0), TermInstr(p)), AtTerm(k, TermNext(c, p, e.stops)), e);
  }

  lemma {:induction false} TermBegins(c: Control, k: Caller, e: Env)
    requires !k.Direct?
    ensures Settle(c, AtTerm(k, TRunFalse), e) == Settle(c.(run := false), AtStop(k, SReadStreaming), e)
  {
    hide Settle, Do;
    DoSetRunFalse(c);
    TermMoves(c, k, TRunFalse, e);
  }

  lemma {:induction false} TermEnds(c: Control, k: Caller, e: Env)
    requires !k.Direct?
    ensures Settle(c, AtStop(k, SDone), e) == Settle(c, AtTerm(k, TDone), e)
  {
    hide Settle, Do;
    DoNothing(c);
    TermMoves(c, k, TStop(SDone), e);
    TermMoves(c, k, TNotify, e);
  }

  /** One instruction of Fatal outside Terminate. */
  lemma {:induction false} FatalMoves(c: Control, msg: string, p: FatalPc, back: Work, e: Env)
    requires (p.FTerm? ==> p.t.TDone?) && (p.FLock? ==> c.runOwner.Free?)
    ensures Settle(c, Fatally(msg, p, back), e)
      == Settle(Do(c, Worker(0), FatalInstr(msg, p)),
                if p.FUnlock? then back else Fatally(msg, FatalNext(c, p, e.stops), back), e)
  {
    hide Settle, Do;
    SettleStep(c, Fatally(msg, p, back), Do(c, Worker(0), FatalInstr(msg, p)),
               if p.FUnlock? then back else Fatally(msg, FatalNext(c, p, e.stops), back), e);
  }

  /** Lines 147-148: whether this is the first fatal error. */
  lemma {:induction false} FatalEnters(c: Control, msg: string, back: Work, e: Env)
    requires c.runOwner.Free?
    ensures Settle(c, Fatally(msg, FLock, back), e)
      == Settle(c.(runOwner := Worker(0)), Fatally(msg, if c.fatal then FUnlock else FSetMsg, back), e)
  {
    hide Settle, Do;
    var held := c.(runOwner := Worker(0));
    DoLockRun(c);
    DoNothing(held);
    FatalMoves(c, msg, FLock, back, e);
    FatalMoves(held, msg, FCheck, back, e);
  }

  /** Lines 150-151: the message and the flag. */
  lemma {:induction false} FatalBegins(c: Control, msg: string, back: Work, e: Env)
    ensures Settle(c, Fatally(msg, FSetMsg, back), e)
      == Settle(c.(fatalMsg := msg, msgWrites := c.msgWrites + 1, fatal := true),
                AtTerm(FromFatal(msg, back), TRunFalse), e)
  {
    hide Settle, Do;
    var told := c.(fatalMsg := msg, msgWrites := c.msgWrites + 1);
    DoSetMsg(c, msg);
    DoSetFatal(told);
    FatalMoves(c, msg, FSetMsg, back, e);
    FatalMoves(told, msg, FSetFatal, back, e);
  }

  lemma {:induction false} FatalEnds(c: Control, msg: string, back: Work, e: Env)
    ensures Settle(c, AtTerm(FromFatal(msg, back), TDone), e) == Settle(c, Fatally(msg, FUnlock, back), e)
  {
    hide Settle, Do;
    FatalMoves(c, msg, FTerm(TDone), back, e);
    DoNothing(c);
  }

  lemma {:induction false} FatalLeaves(c: Control, msg: string, back: Work, e: Env)
    ensures Settle(c, Fatally(msg, FUnlock, back), e) == Settle(c.(runOwner := Free), back, e)
  {
    hide Settle, Do;
    DoUnlockRun(c);
    FatalMoves(c, msg, FUnlock, back, e);
  }

  /** One instruction of OpenDev. */
  lemma {:induction false} OpenMoves(c: Control, p: OpenPc, e: Env)
    requires p.OLock? ==> c.flowOwner.Free?
    ensures Settle(c, Opening(p), e)
      == Settle(Do(c, Worker(0), OpenInstr(p)), OpenNext(c, p, Pick(e, Opening(p))), e)
  {
    hide Settle, Do, OpenInstr, OpenNext;
    SettleStep(c, Opening(p), Do(c, Worker(0), OpenInstr(p)), OpenNext(c, p, Pick(e, Opening(p))), e);
  }

  lemma {:induction false} OpenEnds(c: Control, p: OpenPc, e: Env)
    requires p.OUnlock? || p.OUnlockFailed?
    ensures Settle(c, Opening(p), e) == Some(c.(flowOwner := Free))
  {
    hide Settle, Do;
    DoUnlockFlow(c);
    OpenMoves(c, p, e);
    Settled(c.(flowOwner := Free), e);
  }

  lemma {:induction false} OpenEnters(c: Control, e: Env)
    requires c.flowOwner.Free?
    ensures Settle(c, Opening(OLock), e)
      == Settle(c.(flowOwner := Worker(0)), Opening(if c.dev.Some? then OUnlock else ONew), e)
  {
    hide Settle, Do;
    var held := c.(flowOwner := Worker(0));
    DoLockFlow(c);
    DoNothing(held);
    OpenMoves(c, OLock, e);
    OpenMoves(held, OCheckNull, e);
  }

  /** Lines 105-119: a new device, and whether libusb finds the hardware. */
  lemma {:induction false} OpenCreates(c: Control, e: Env)
    requires c.dev.None?
    ensures Settle(c, Opening(ONew), e)
      == Settle(c.(dev := Some(c.made), live := c.live + {c.made}, devErr := false, made := c.made + 1),
                Opening(if e.usbOpens then OCall else OUsbDelete), e)
  {
    hide Settle, Do;
    var c' := c.(dev := Some(c.made), live := c.live + {c.made}, devErr := false, made := c.made + 1);
    DoNewDev(c);
    DoNothing(c');
    OpenMoves(c, ONew, e);
    OpenMoves(c', OCheckNew, e);
    OpenMoves(c', OCheckErr, e);
    OpenMoves(c', OUsbOpen, e);
  }

  /** Lines 121-123. */
  lemma {:induction false} UsbFails(c: Control, e: Env)
    requires Live(c)
    ensures Settle(c, Opening(OUsbDelete), e)
      == Settle(c.(live := c.live - {c.dev.value}, dev := None), Fatally(e.text, FLock, Opening(OUnlockFailed)), e)
  {
    hide Settle, Do;
    var c' := c.(live := c.live - {c.dev.value});
    var c'' := c'.(dev := None);
    DoFreeDev(c);
    DoNullDev(c');
    DoNothing(c'');
    OpenMoves(c, OUsbDelete, e);
    OpenMoves(c', OUsbNull, e);
    OpenMoves(c'', OUsbText, e);
  }

  /** Lines 127-130, 139. */
  lemma {:induction false} DriverOpens(c: Control, e: Env)
    requires Live(c)
    ensures Settle(c, Opening(OCall), e)
      == if e.devOpens then Settle(c.(ready := true), Opening(OUnlock), e)
         else Settle(c, Fatally(e.text, FLock, Opening(ODelete)), e)
  {
    hide Settle, Do;
    DoNothing(c);
    OpenMoves(c, OCall, e);
    OpenMoves(c, ODriver(c.dev.value), e);
    if e.devOpens {
      DoSetReady(c);
      OpenMoves(c, OReady, e);
    } else {
      OpenMoves(c, OOpenText, e);
    }
  }

  /** Lines 131-134 and the end of the scope. */
  lemma {:induction false} OpenCleansUp(c: Control, e: Env)
    requires Live(c)
    ensures Settle(c, Opening(ODelete), e) == Some(c.(live := c.live - {c.dev.value}, dev := None, flowOwner := Free))
  {
    hide Settle, Do;
    var c' := c.(live := c.live - {c.dev.value});
    var c'' := c'.(dev := None);
    DoFreeDev(c);
    DoNullDev(c');
    DoNothing(c'');
    OpenMoves(c, ODelete, e);
    OpenMoves(c', ONull, e);
    OpenMoves(c'', OUsbClose, e);
    OpenEnds(c'', OUnlockFailed, e);
  }

  /** One instruction of StartEncoding. */
  lemma {:induction false} StartMoves(c: Control, p: StartPc, e: Env)
    ensures Settle(c, Starting(p), e) == Settle(Do(c, Worker(0), StartInstr(p)), StartNext(c, p, e.starts), e)
  {
    hide Settle, Do, StartInstr, StartNext;
    SettleStep(c, Starting(p), Do(c, Worker(0), StartInstr(p)), StartNext(c, p, e.starts), e);
  }

  lemma {:induction false} StartSucceeds(c: Control, e: Env)
    ensures Settle(c, Starting(ASet), e) == Some(c.(streaming := true))
  {
    hide Settle, Do;
    DoSetStreaming(c, true);
    StartMoves(c, ASet, e);
    Settled(c.(streaming := true), e);
  }

  lemma {:induction false} Settled(c: Control, e: Env)
    ensures Settle(c, Idle, e) == Some(c)
  {
  }

  class MythTV {
    var runOwner: Owner
    var flowOwner: Owner
    var run: bool
    var fatal: bool
    var fatalMsg: string
    var streaming: bool
    var xon: bool
    var ready: bool
    var dev: Option<nat>
    var live: set<nat>
    var devErr: bool
    var made: nat
    ghost var rest: Control // the history fields of the machine

    ghost function Shared(): Control
      reads this
    {
      Control(runOwner, flowOwner, run, fatal, fatalMsg, streaming, xon, ready, dev, live, devErr, made,
              rest.crashed, rest.msgWrites, rest.nested, rest.replies)
    }

    constructor ()
      ensures Shared()
        == Control(Free, Free, true, false, "", false, false, false, None, {}, false, 0, false, 0, false, [])
      ensures Steady(Shared()) && InBrief(Shared()) == NEW
    {
      runOwner, flowOwner := Free, Free;
      run, fatal, fatalMsg := true, false, "";
      streaming, xon, ready := false, false, false;
      dev, live, devErr, made := None, {}, false, 0;
      rest := Control(Free, Free, true, false, "", false, false, false, None, {}, false, 0, false, 0, false, []);
    }

    /** MythTV::StopEncoding.  Once streaming is seen, the branches for a recorder that is not ready
        or has no device cannot be taken. */
    method StopEncoding(soft: bool, e: Env, ghost k: Caller) returns (ok: bool, resultmsg: string)
      requires Lifecycle(Shared()) && (flowOwner.Free? || !streaming)
      modifies this`flowOwner, this`streaming
      ensures Settle(old(Shared()), AtStop(k, SReadStreaming), e) == Settle(Shared(), AtStop(k, SDone), e)
      ensures flowOwner == old(flowOwner) && !streaming
      ensures ok <==> !old(streaming) || e.stops
      ensures resultmsg == if !old(streaming) && !soft then "Already not streaming!" else if ok then "" else e.text
    {
      hide Settle, Do;
      resultmsg := "";
      ghost var c := Shared();
      if !streaming {
        StopAtOnce(c, k, e);
        if !soft {
          resultmsg := "Already not streaming!";
        }
        return true, resultmsg;
      }
      StopSettles(c, k, e);
      StopCallSettles(c, k, e);
      flowOwner := Worker(0);
      flowOwner := Free;
      streaming := false;
      if !e.stops {
        return false, e.text;
      }
      return true, "";
    }

    /** MythTV::Terminate. */
    method Terminate(e: Env, ghost k: Caller)
      requires Lifecycle(Shared()) && (flowOwner.Free? || !streaming) && !k.Direct?
      modifies this`flowOwner, this`streaming, this`run
      ensures Settle(old(Shared()), AtTerm(k, TRunFalse), e) == Settle(Shared(), AtTerm(k, TDone), e)
      ensures flowOwner == old(flowOwner) && !streaming && !run
    {
      hide Settle, AtStop, AtTerm, Do;
      TermBegins(Shared(), k, e);
      run := false;
      var _, _ := StopEncoding(true, e, k);
      TermEnds(Shared(), k, e);
    }

    /** Lines 150-153, with the run mutex held and no fatal error before. */
    method FirstFatal(msg: string, e: Env, ghost back: Work)
      requires Lifecycle(Shared()) && (flowOwner.Free? || !streaming)
      modifies this`fatal, this`fatalMsg, this`rest, this`flowOwner, this`streaming, this`run
      ensures Settle(old(Shared()), Fatally(msg, FSetMsg, back), e) == Settle(Shared(), Fatally(msg, FUnlock, back), e)
      ensures flowOwner == old(flowOwner) && fatal && fatalMsg == msg && !run && !streaming
      ensures rest.crashed == old(rest.crashed)
    {
      hide Settle, AtTerm, Do;
      FatalBegins(Shared(), msg, back, e);
      fatalMsg := msg;
      rest := rest.(msgWrites := rest.msgWrites + 1);
      fatal := true;
      Terminate(e, FromFatal(msg, back));
      FatalEnds(Shared(), msg, back, e);
    }

    /** MythTV::Fatal, called with the run mutex free; with the flow mutex held only while there is
        no streaming to stop. */
    method Fatal(msg: string, e: Env, ghost back: Work)
      requires Lifecycle(Shared()) && runOwner.Free? && (flowOwner.Free? || !streaming)
      modifies this`runOwner, this`fatal, this`fatalMsg, this`rest, this`flowOwner, this`streaming, this`run
      ensures Settle(old(Shared()), Fatally(msg, FLock, back), e) == Settle(Shared(), back, e)
      ensures runOwner.Free? && flowOwner == old(flowOwner) && fatal && rest.crashed == old(rest.crashed)
      ensures fatalMsg == if old(fatal) then old(fatalMsg) else msg
      ensures if old(fatal) then run == old(run) && streaming == old(streaming) else !run && !streaming
    {
      hide Settle, Do;
      FatalEnters(Shared(), msg, back, e);
      runOwner := Worker(0);
      if !fatal {
        FirstFatal(msg, e, back);
      }
      FatalLeaves(Shared(), msg, back, e);
      runOwner := Free;
    }

    /** The fields that a failed open leaves behind. */
    twostate predicate OpenFailed(e: Env)
      reads this
    {
      && Lifecycle(Shared()) && flowOwner.Free? && runOwner.Free? && !ready && dev.None? && live == {}
      && fatal && fatalMsg == (if old(fatal) then old(fatalMsg) else e.text)
      && run == (old(run) && old(fatal))
    }

    /** The fields that an open leaves behind that succeeds or finds the recorder ready. */
    twostate predicate OpenSucceeded()
      reads this
    {
      && Lifecycle(Shared()) && flowOwner.Free? && runOwner.Free? && ready && dev.Some?
      && streaming == old(streaming) && run == old(run) && fatal == old(fatal) && fatalMsg == old(fatalMsg)
    }

    /** Lines 121-124: libusb does not find the hardware. */
    method NoUsb(e: Env)
      requires Lifecycle(Shared()) && flowOwner == Worker(0) && runOwner.Free? && !ready && dev.Some? && Live(Shared())
      modifies this
      ensures Settle(old(Shared()), Opening(OUsbDelete), e) == Some(Shared()) && OpenFailed(e)
    {
      hide Settle, Do;
      UsbFails(Shared(), e);
      live := live - {dev.value};
      dev := None;
      Fatal(e.text, e, Opening(OUnlockFailed));
      OpenEnds(Shared(), OUnlockFailed, e);
      flowOwner := Free;
    }

    /** Lines 130-136: the driver does not open the device. */
    method NoDriver(e: Env)
      requires Lifecycle(Shared()) && flowOwner == Worker(0) && runOwner.Free? && !ready && dev.Some? && Live(Shared())
      modifies this
      ensures Settle(old(Shared()), Fatally(e.text, FLock, Opening(ODelete)), e) == Some(Shared()) && OpenFailed(e)
    {
      hide Settle, Do;
      Fatal(e.text, e, Opening(ODelete));
      OpenCleansUp(Shared(), e);
      live := live - {dev.value};
      dev := None;
      flowOwner := Free;
    }

    /** Lines 105-140, with no device yet.  The branches for a failed `new` and for a device with
        m_err set cannot be taken. */
    method Build(e: Env)
      requires Lifecycle(Shared()) && flowOwner == Worker(0) && runOwner.Free? && !ready && dev.None?
      modifies this
      ensures Settle(old(Shared()), Opening(ONew), e) == Some(Shared())
      ensures if e.usbOpens && e.devOpens then OpenSucceeded() else OpenFailed(e)
    {
      hide Settle, Do;
      OpenCreates(Shared(), e);
      dev, live, devErr, made := Some(made), live + {made}, false, made + 1;
      if !e.usbOpens {
        NoUsb(e);
        return;
      }
      DriverOpens(Shared(), e);
      if !e.devOpens {
        NoDriver(e);
        return;
      }
      ready := true;
      OpenEnds(Shared(), OUnlock, e);
      flowOwner := Free;
    }

    /** MythTV::OpenDev. */
    method OpenDev(e: Env)
      requires Lifecycle(Shared()) && flowOwner.Free? && runOwner.Free? && (dev.Some? <==> ready)
      modifies this
      ensures Settle(old(Shared()), Opening(OLock), e) == Some(Shared())
      ensures if old(ready) || (e.usbOpens && e.devOpens) then OpenSucceeded() else OpenFailed(e)
    {
      hide Settle, Do;
      OpenEnters(Shared(), e);
      flowOwner := Worker(0);
      if dev.Some? {
        OpenEnds(Shared(), OUnlock, e);
        flowOwner := Free;
      } else {
        Build(e);
      }
    }

    /** MythTV::StartEncoding. */
    method StartEncoding(e: Env) returns (ok: bool, resultmsg: string)
      requires Lifecycle(Shared())
      modifies this`streaming
      ensures Settle(old(Shared()), Starting(AReadStreaming), e) == Some(Shared())
      ensures ok <==> old(streaming) || (ready && e.starts)
      ensures streaming <==> ok
      ensures resultmsg ==
        if old(streaming) then "Already streaming!" else if !ready then "Hauppauge device not ready."
        else if ok then "" else e.text
    {
      hide Settle, Do;
      ghost var c := Shared();
      DoNothing(c);
      StartMoves(c, AReadStreaming, e);
      if streaming {
        Settled(c, e);
        return true, "Already streaming!";
      }
      StartMoves(c, AReadReady, e);
      if !ready {
        Settled(c, e);
        return false, "Hauppauge device not ready.";
      }
      StartMoves(c, ACall, e);
      StartMoves(c, ADriver(dev.value), e);
      if !e.starts {
        StartMoves(c, AError, e);
        Settled(c, e);
        return false, e.text;
      }
      StartSucceeds(c, e);
      streaming := true;
      return true, "";
    }

    /** A call that ends the streaming, or may end it, made while nobody holds a mutex. */
    method PerformEnd(op: Request)
      requires Steady(Shared()) && (op.call.Stop? || op.call.Fail? || op.call.End?)
      modifies this
      ensures Steady(Shared()) && Settle(old(Shared()), Program(op.call), op.env) == Some(Shared())
      ensures InBrief(Shared()) == After(InBrief(old(Shared())), op)
    {
      hide Settle, Do;
      if op.call.Stop? {
        var _, _ := StopEncoding(false, op.env, Direct);
        StopReturns(Shared(), op.env);
      } else if op.call.Fail? {
        Fatal(op.call.msg, op.env, Idle);
        Settled(Shared(), op.env);
      } else {
        Terminate(op.env, FromTerminate);
        TermReturns(Shared(), op.env);
      }
    }

    /** Any call. */
    method Perform(op: Request)
      requires Steady(Shared())
      modifies this
      ensures Steady(Shared()) && Settle(old(Shared()), Program(op.call), op.env) == Some(Shared())
      ensures InBrief(Shared()) == After(InBrief(old(Shared())), op)
    {
      hide Settle, Do;
      if op.call.Open? {
        OpenDev(op.env);
      } else if op.call.Start? {
        var _, _ := StartEncoding(op.env);
      } else {
        PerformEnd(op);
      }
    }

    /** Any sequence of calls takes the object where the machine takes the fields, and where the
        brief form of the calls takes the brief form of the object. */
    method Drive(ops: seq<Request>)
      requires Steady(Shared())
      modifies this
      ensures Steady(Shared()) && SettleAll(old(Shared()), ops) == Some(Shared())
      ensures InBrief(Shared()) == AfterAll(InBrief(old(Shared())), ops)
    {
      hide Settle, Steady, After, InBrief;
      var n := 0;
      while n < |ops|
        invariant 0 <= n <= |ops| && Steady(Shared())
        invariant SettleAll(Shared(), ops[n..]) == SettleAll(old(Shared()), ops)
        invariant AfterAll(InBrief(Shared()), ops[n..]) == AfterAll(InBrief(old(Shared())), ops)
      {
        assert ops[n..][1..] == ops[n + 1..];
        Perform(ops[n]);
        n := n + 1;
      }
    }
  }

  // ---------------------------------------------------------------- sequences of calls

  datatype Call = Open | Start | Stop | Fail(msg: string) | End

  /** A call, and how the calls into the driver that it makes end. */
  datatype Request = Request(call: Call, env: Env)

  function Program(call: Call): Work
  {
    match call
    case Open => OpWork(OpOpen)
    case Start => OpWork(OpStart)
    case Stop => OpWork(OpStop)
    case Fail(msg) => OpWork(OpFatal(msg))
    case End => OpWork(OpTerminate)
  }

  function SettleAll(c: Control, ops: seq<Request>): Option<Control>
    decreases |ops|
  {
    if ops == [] then Some(c)
    else
      var c' := Settle(c, Program(ops[0].call), ops[0].env);
      if c'.None? then None else SettleAll(c'.value, ops[1..])
  }

  /** Between the calls: the device is there exactly when the recorder is ready. */
  predicate Steady(c: Control) {
    Lifecycle(c) && c.runOwner.Free? && c.flowOwner.Free? && (c.dev.Some? <==> c.ready)
  }

  /** What a client knows of the recorder. */
  datatype Brief = Brief(ready: bool, streaming: bool, run: bool, fatal: bool, msg: string)

  function InBrief(c: Control): Brief {
    Brief(c.ready, c.streaming, c.run, c.fatal, if c.fatal then c.fatalMsg else "")
  }

  const NEW := Brief(false, false, true, false, "")

  /** The first error ends the run and the streaming, later ones change nothing. */
  function Failing(b: Brief, msg: string): Brief {
    if b.fatal then b else Brief(b.ready, false, false, true, msg)
  }

  /** Each call in brief. */
  function After(b: Brief, op: Request): Brief
  {
    var e := op.env;
    match op.call
    case Open => if b.ready then b else if e.usbOpens && e.devOpens then b.(ready := true) else Failing(b, e.text)
    case Start => b.(streaming := b.streaming || (b.ready && e.starts))
    case Stop => b.(streaming := false)
    case Fail(msg) => Failing(b, msg)
    case End => b.(run := false, streaming := false)
  }

  function AfterAll(b: Brief, ops: seq<Request>): Brief
    decreases |ops|
  {
    if ops == [] then b else AfterAll(After(b, ops[0]), ops[1..])
  }

  /** What holds between the calls. */
  predicate Sound(b: Brief) { (b.streaming ==> b.ready) && (b.fatal ==> !b.run) && (!b.fatal ==> b.msg == "") }

  /** What no call takes back. */
  predicate Lasts(b: Brief, b': Brief) {
    (b.ready ==> b'.ready) && (b'.run ==> b.run) && (b.fatal ==> b'.fatal && b'.msg == b.msg)
  }

  lemma {:induction false} CallsLast(b: Brief, ops: seq<Request>)
    requires Sound(b)
    ensures Sound(AfterAll(b, ops)) && Lasts(b, AfterAll(b, ops))
    decreases |ops|
  {
    if ops == [] {
    } else {
      CallsLast(After(b, ops[0]), ops[1..]);
    }
  }

  /** The error that a call reports, in a recorder that is ready or not. */
  function Reports(ready: bool, op: Request): Option<string>
  {
    match op.call
    case Open => if ready || (op.env.usbOpens && op.env.devOpens) then None else Some(op.env.text)
    case Fail(msg) => Some(msg)
    case _ => None
  }

  /** Some open before request `n` has succeeded. */
  predicate ReadyBefore(ops: seq<Request>, n: nat)
    requires n <= |ops|
  {
    exists i :: 0 <= i < n && Opens(ops[i])
  }

  predicate Opens(op: Request) { op.call.Open? && op.env.usbOpens && op.env.devOpens }

  /** After any calls on a new object: it is ready exactly if some open has succeeded, and fatal
      exactly if some call has reported an error, with the message of the first of them. */
  lemma {:induction false} FirstErrorStays(ops: seq<Request>, n: nat)
    requires n <= |ops|
    ensures var b := AfterAll(NEW, ops[..n]);
      && (b.ready <==> ReadyBefore(ops, n))
      && (b.fatal <==> exists i :: 0 <= i < n && Reports(ReadyBefore(ops, i), ops[i]).Some?)
      && (b.fatal ==> exists i :: 0 <= i < n && Reports(ReadyBefore(ops, i), ops[i]) == Some(b.msg)
                                  && forall j | 0 <= j < i :: Reports(ReadyBefore(ops, j), ops[j]).None?)
    decreases n
  {
    hide Reports, After, ReadyBefore, AfterAll;
    if n == 0 {
      NothingHappened(ops);
    } else {
      var b := AfterAll(NEW, ops[..n - 1]);
      FirstErrorStays(ops, n - 1);
      AfterLast(NEW, ops[..n - 1], ops[n - 1]);
      assert ops[..n - 1] + [ops[n - 1]] == ops[..n];
      ReadyOneMore(ops, n - 1);
      AfterReports(b, ops[n - 1]);
      if b.fatal {
        var i :| 0 <= i < n - 1 && Reports(ReadyBefore(ops, i), ops[i]) == Some(b.msg)
          && forall j | 0 <= j < i :: Reports(ReadyBefore(ops, j), ops[j]).None?;
      }
    }
  }

  lemma {:induction false} NothingHappened(ops: seq<Request>)
    ensures !ReadyBefore(ops, 0) && AfterAll(NEW, ops[..0]) == NEW
  {
  }

  lemma {:induction false} ReadyOneMore(ops: seq<Request>, n: nat)
    requires n < |ops|
    ensures ReadyBefore(ops, n + 1) <==> ReadyBefore(ops, n) || Opens(ops[n])
  {
    hide Opens;
  }

  lemma {:induction false} AfterLast(b: Brief, ops: seq<Request>, op: Request)
    ensures AfterAll(b, ops + [op]) == After(AfterAll(b, ops), op)
    decreases |ops|
  {
    hide After;
    if ops == [] {
      assert ([] + [op])[1..] == [];
    } else {
      assert (ops + [op])[1..] == ops[1..] + [op];
      AfterLast(After(b, ops[0]), ops[1..], op);
    }
  }

  lemma {:induction false} AfterReports(b: Brief, op: Request)
    ensures var (b', r) := (After(b, op), Reports(b.ready, op));
      && (b'.ready <==> b.ready || Opens(op))
      && (b'.fatal <==> b.fatal || r.Some?)
      && (b.fatal ==> b'.msg == b.msg)
      && (!b.fatal && r.Some? ==> b'.msg == r.value)
  {
  }

  /** A fatal recorder can be streaming: a start after the error is decided by the driver alone. */
  lemma {:induction false} StartAfterFatal(e: Env, msg: string)
    requires e.usbOpens && e.devOpens
    ensures AfterAll(NEW, [Request(Open, e), Request(Fail(msg), e), Request(Start, e)])
      == Brief(true, e.starts, false, true, msg)
  {
    AfterLast(NEW, [Request(Open, e), Request(Fail(msg), e)], Request(Start, e));
    AfterLast(NEW, [Request(Open, e)], Request(Fail(msg), e));
    AfterLast(NEW, [], Request(Open, e));
    assert [] + [Request(Open, e)] == [Request(Open, e)];
    assert [Request(Open, e)] + [Request(Fail(msg), e)] == [Request(Open, e), Request(Fail(msg), e)];
    assert [Request(Open, e), Request(Fail(msg), e)] + [Request(Start, e)]
      == [Request(Open, e), Request(Fail(msg), e), Request(Start, e)];
  }

  lemma {:induction false} StopReturns(c: Control, e: Env)
    ensures Settle(c, Stopping(SDone), e) == Some(c)
  {
    hide Do;
    DoNothing(c);
    SettleStep(c, Stopping(SDone), c, Idle, e);
  }

  lemma {:induction false} TermReturns(c: Control, e: Env)
    ensures Settle(c, Terminating(TDone), e) == Some(c)
  {
    hide Do;
    DoNothing(c);
    SettleStep(c, Terminating(TDone), c, Idle, e);
  }
}
