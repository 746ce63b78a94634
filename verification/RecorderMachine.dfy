/**
  The recorder core of MythTV.cpp as an interleaved step machine.

  Any number of workers (the command parser, the watchdog, the USB callback threads) and the one
  consumer thread of `Buffer::Run` take turns.  One step is one access to the shared fields or to
  one of the two mutexes, so every interleaving of the original statements is a run.  Neither
  mutex is recursive: a blocking lock can be taken only while nobody, not even its caller, owns it.

  The calls into the vendor driver are left open: a driver call returns success or failure, and
  before it returns it may report a USB error any number of times, which runs `Fatal` on the
  calling thread (`controlMessage` calls the error callback synchronously).
*/
module RecorderMachine {
  import opened Option

  newtype byte = x: int | 0 <= x < 256
  type Block = seq<byte>

  const MAX_QUEUE: nat := 500
  const TWO_TO_64: nat := 0x1_0000_0000_0000_0000
  const USB_ERROR := "Detected Error with USB."

  datatype Owner = Free | Worker(tid: nat) | Consumer

  /** The commands that lock m_run_mutex: APIVersion?, Version?, IsOpen? and APIVersion:N. */
  datatype QueryKind = ApiVersion | Version | IsOpen | SetVersion

  datatype Reply = Err(msg: string) | Fine(kind: QueryKind, open: bool)

  /** The shared fields of MythTV.  `m_dev` is the number of a device; it dangles when that number
      is not in `live`, the devices constructed and not yet deleted.  `devErr` is the `m_err` of the
      device constructed last.  The fields after `devErr` are history: what happened so far. */
  datatype Control = Control(
    runOwner: Owner,
    flowOwner: Owner,
    run: bool,
    fatal: bool,
    fatalMsg: string,
    streaming: bool,
    xon: bool,
    ready: bool,
    dev: Option<nat>,
    live: set<nat>,
    devErr: bool,
    made: nat,          // devices constructed so far
    crashed: bool,      // some step dereferenced a null or dangling m_dev
    msgWrites: nat,     // assignments to m_fatal_msg so far
    nested: bool,       // a driver stop call made inside Fatal reported a USB error
    replies: seq<Reply> // answers to APIVersion?, Version? and IsOpen?, in order
  )

  /** A block leaves the queue by a pop, to be written, or by the swap that clears the queue. */
  datatype Leaving = Popped | Swapped

  /** A block that Fill brought to the queue, and whether there was room for it. */
  datatype Offer = Offer(blk: Block, taken: bool)

  /** The packet queue of Buffer and the history of its blocks. */
  datatype Media = Media(
    queue: seq<Block>,
    dropped: nat,
    accepted: seq<Block>, // every block ever pushed, in order
    offers: seq<Offer>,   // every block offered to the queue under the lock, in order
    left: seq<Leaving>,   // how each block that left the queue did so, in order
    outIds: seq<nat>,     // for each block written, its index in accepted
    out: seq<Block>       // the blocks handed to write(1, ...), in order
  )

  // ---------------------------------------------------------------- program counters

  datatype StopPc =
    | SReadStreaming | SReadReady | SLockFlow | SCheckDev | SUnlockBad | SUnlock
    | SClear | SCall | SDriver(d: nat) | SError | SDone

  datatype TermPc = TRunFalse | TStop(s: StopPc) | TNotify | TDone

  datatype FatalPc = FLock | FCheck | FSetMsg | FSetFatal | FTerm(t: TermPc) | FUnlock

  datatype OpenPc =
    | OLock | OCheckNull | ONew | OCheckNew | OCheckErr | OErrDelete | OErrNull | OErrText
    | OUsbOpen | OUsbDelete | OUsbNull | OUsbText
    | OCall | ODriver(d: nat) | OOpenText | ODelete | ONull | OUsbClose
    | OReady | OUnlock | OUnlockFailed

  datatype StartPc = AReadStreaming | AReadReady | ACall | ADriver(d: nat) | AError | ASet

  datatype WatchPc = WLock | WSleep | WRelock | WCheck | WUnlock | WUnlockExit | WStreaming

  datatype QueryPc = QLock | QSend | QUnlock

  datatype FillPc = LTry | LPush | LUnlock

  /** What one worker is doing.  `Fatally` runs `Fatal(msg)` and then resumes `back`. */
  datatype Work =
    | Idle
    | Opening(o: OpenPc)
    | Starting(a: StartPc)
    | Stopping(s: StopPc)
    | Terminating(t: TermPc)
    | Watching(w: WatchPc)
    | Querying(kind: QueryKind, q: QueryPc)
    | Filling(blk: Block, l: FillPc)
    | Fatally(msg: string, f: FatalPc, back: Work)

  datatype ConsumerPc =
    | CTop | CWait | CStats | CStreaming | CXon | CTryLock | CPop | CUnlock | CWrite | CEmpty
    | CClearTry | CClear | CClearUnlock | CExit

  /** The thread of Buffer::Run with its local variables. */
  datatype Sink = Sink(
    pc: ConsumerPc,
    wait: bool,
    isEmpty: bool,
    pkt: Block,
    written: nat,
    writeTotal: nat,
    writeCnt: nat,
    emptyCnt: nat
  )

  datatype State = State(ctl: Control, media: Media, workers: seq<Work>, sink: Sink)

  /** What a step leaves to the environment: whether a call or a timed lock succeeds, whether a
      driver call reports a USB error now, and the text of a foreign error message. */
  datatype Choice = Choice(ok: bool, callback: bool, text: string)

  datatype Op =
    | OpOpen | OpFatal(m: string) | OpTerminate | OpStart | OpStop | OpWatch
    | OpQuery(k: QueryKind) | OpFill(b: Block) | OpFlow(xon: bool)

  datatype Action = Begin(t: nat, op: Op) | Go(t: nat, ch: Choice) | Consume(ch: Choice)

  // ---------------------------------------------------------------- who holds, who waits

  predicate StopHoldsFlow(p: StopPc) { p.SCheckDev? || p.SUnlockBad? || p.SUnlock? }

  predicate TermHoldsFlow(p: TermPc) { p.TStop? && StopHoldsFlow(p.s) }

  predicate OpenHoldsFlow(p: OpenPc) { !p.OLock? }

  /** The worker owns m_flow_mutex. */
  predicate HoldsFlow(w: Work)
  {
    match w
    case Opening(p) => OpenHoldsFlow(p)
    case Stopping(p) => StopHoldsFlow(p)
    case Terminating(p) => TermHoldsFlow(p)
    case Filling(_, p) => !p.LTry?
    case Fatally(_, p, back) => (p.FTerm? && TermHoldsFlow(p.t)) || HoldsFlow(back)
    case _ => false
  }

  /** The worker owns m_run_mutex. */
  predicate HoldsRun(w: Work)
  {
    match w
    case Watching(p) => p.WSleep? || p.WCheck? || p.WUnlock? || p.WUnlockExit?
    case Querying(_, p) => !p.QLock?
    case Fatally(_, p, back) => !p.FLock? || HoldsRun(back)
    case _ => false
  }

  /** The worker's next instruction is a blocking lock of m_flow_mutex. */
  predicate WantsFlow(w: Work)
  {
    match w
    case Opening(p) => p.OLock?
    case Stopping(p) => p.SLockFlow?
    case Terminating(p) => p == TStop(SLockFlow)
    case Fatally(_, p, _) => p == FTerm(TStop(SLockFlow))
    case _ => false
  }

  /** The worker's next instruction is a blocking lock of m_run_mutex. */
  predicate WantsRun(w: Work)
  {
    match w
    case Watching(p) => p.WLock? || p.WRelock?
    case Querying(_, p) => p.QLock?
    case Fatally(_, p, _) => p.FLock?
    case _ => false
  }

  predicate SinkHoldsFlow(k: Sink) {
    k.pc.CPop? || k.pc.CUnlock? || k.pc.CClear? || k.pc.CClearUnlock?
  }

  // ---------------------------------------------------------------- the atomic instructions

  /** One access to the shared fields or to a mutex. */
  datatype Instr =
    | Skip                        // only reads
    | LockRun | UnlockRun | LockFlow | UnlockFlow
    | Deref                       // m_dev->...
    | NewDev | FreeDev | NullDev  // m_dev = new ..., delete m_dev, m_dev = nullptr
    | SetReady
    | SetStreaming(on: bool)
    | SetRunFalse
    | SetMsg(m: string) | SetFatal
    | Answer(k: QueryKind)
    | Reenter                     // the error callback runs on a thread inside Fatal

  predicate Live(c: Control) { c.dev.Some? && c.dev.value in c.live }

  function Do(c: Control, me: Owner, i: Instr): Control
  {
    Control(
      if i.LockRun? then me else if i.UnlockRun? then Free else c.runOwner,
      if i.LockFlow? then me else if i.UnlockFlow? then Free else c.flowOwner,
      c.run && !i.SetRunFalse?,
      c.fatal || i.SetFatal?,
      if i.SetMsg? then i.m else c.fatalMsg,
      if i.SetStreaming? then i.on else c.streaming,
      c.xon,
      c.ready || i.SetReady?,
      if i.NewDev? then Some(c.made) else if i.NullDev? then None else c.dev,
      if i.NewDev? then c.live + {c.made}
      else if i.FreeDev? && c.dev.Some? then c.live - {c.dev.value} else c.live,
      c.devErr && !i.NewDev?,
      if i.NewDev? then c.made + 1 else c.made,
      c.crashed || (i.Deref? && !Live(c)) || (i.FreeDev? && c.dev.Some? && !Live(c)),
      if i.SetMsg? then c.msgWrites + 1 else c.msgWrites,
      c.nested || i.Reenter?,
      if i.Answer? then c.replies + [if c.fatal then Err(c.fatalMsg) else Fine(i.k, c.ready)] else c.replies)
  }

  // ---------------------------------------------------------------- the programs of the workers

  /** MythTV::StopEncoding, MythTV.cpp:184-225. */
  function StopInstr(p: StopPc): Instr
  {
    match p
    case SLockFlow => LockFlow
    case SUnlockBad | SUnlock => UnlockFlow
    case SClear => SetStreaming(false)
    case SCall | SError => Deref
    case _ => Skip
  }

  function StopNext(c: Control, p: StopPc, ok: bool): StopPc
  {
    match p
    case SReadStreaming => if c.streaming then SReadReady else SDone
    case SReadReady => if c.ready then SLockFlow else SDone
    case SLockFlow => SCheckDev
    case SCheckDev => if c.dev.None? then SUnlockBad else SUnlock
    case SUnlockBad => SDone
    case SUnlock => SClear
    case SClear => SCall
    case SCall => if c.dev.Some? then SDriver(c.dev.value) else SDone
    case SDriver(_) => if ok then SDone else SError
    case SError | SDone => SDone
  }

  /** MythTV::Terminate, MythTV.cpp:63-73. */
  function TermInstr(p: TermPc): Instr {
    if p.TRunFalse? then SetRunFalse else if p.TStop? then StopInstr(p.s) else Skip
  }

  function TermNext(c: Control, p: TermPc, ok: bool): TermPc
  {
    match p
    case TRunFalse => TStop(SReadStreaming)
    case TStop(q) => if q.SDone? then TNotify else TStop(StopNext(c, q, ok))
    case TNotify | TDone => TDone
  }

  /** MythTV::Fatal, MythTV.cpp:143-155. */
  function FatalInstr(msg: string, p: FatalPc): Instr
  {
    match p
    case FLock => LockRun
    case FCheck => Skip
    case FSetMsg => SetMsg(msg)
    case FSetFatal => SetFatal
    case FTerm(q) => TermInstr(q)
    case FUnlock => UnlockRun
  }

  function FatalNext(c: Control, p: FatalPc, ok: bool): FatalPc
  {
    match p
    case FLock => FCheck
    case FCheck => if c.fatal then FUnlock else FSetMsg
    case FSetMsg => FSetFatal
    case FSetFatal => FTerm(TRunFalse)
    case FTerm(q) => if q.TDone? then FUnlock else FTerm(TermNext(c, q, ok))
    case FUnlock => FUnlock
  }

  /** MythTV::OpenDev, MythTV.cpp:98-141.  The branches for a failed `new` and for a device whose
      constructor set `m_err` are kept although no run reaches them. */
  function OpenInstr(p: OpenPc): Instr
  {
    match p
    case OLock => LockFlow
    case ONew => NewDev
    case OCheckErr | OErrText | OCall | OOpenText => Deref
    case OErrDelete | OUsbDelete | ODelete => FreeDev
    case OErrNull | OUsbNull | ONull => NullDev
    case OReady => SetReady
    case OUnlock | OUnlockFailed => UnlockFlow
    case OCheckNull | OCheckNew | OUsbOpen | OUsbText | ODriver(_) | OUsbClose => Skip
  }

  function OpenNext(c: Control, p: OpenPc, ch: Choice): Work
  {
    match p
    case OLock => Opening(OCheckNull)
    case OCheckNull => Opening(if c.dev.Some? then OUnlock else ONew)
    case ONew => Opening(OCheckNew)
    case OCheckNew =>
      if c.dev.None? then Fatally("Unable to create Hauppauge dev.", FLock, Opening(OUnlockFailed))
      else Opening(OCheckErr)
    case OCheckErr => Opening(if c.devErr then OErrDelete else OUsbOpen)
    case OErrDelete => Opening(OErrNull)
    case OErrNull => Opening(OErrText)
    case OErrText => Fatally(ch.text, FLock, Opening(OUnlockFailed))
    case OUsbOpen => Opening(if ch.ok then OCall else OUsbDelete)
    case OUsbDelete => Opening(OUsbNull)
    case OUsbNull => Opening(OUsbText)
    case OUsbText => Fatally(ch.text, FLock, Opening(OUnlockFailed))
    case OCall => Opening(if c.dev.Some? then ODriver(c.dev.value) else OUnlockFailed)
    case ODriver(_) => Opening(if ch.ok then OReady else OOpenText)
    case OOpenText => Fatally(ch.text, FLock, Opening(ODelete))
    case ODelete => Opening(ONull)
    case ONull => Opening(OUsbClose)
    case OUsbClose => Opening(OUnlockFailed)
    case OReady => Opening(OUnlock)
    case OUnlock | OUnlockFailed => Idle
  }

  /** MythTV::StartEncoding, MythTV.cpp:157-182. */
  function StartInstr(p: StartPc): Instr {
    if p.ACall? || p.AError? then Deref else if p.ASet? then SetStreaming(true) else Skip
  }

  function StartNext(c: Control, p: StartPc, ok: bool): Work
  {
    match p
    case AReadStreaming => if c.streaming then Idle else Starting(AReadReady)
    case AReadReady => if c.ready then Starting(ACall) else Idle
    case ACall => if c.dev.Some? then Starting(ADriver(c.dev.value)) else Idle
    case ADriver(_) => Starting(if ok then ASet else AError)
    case AError | ASet => Idle
  }

  /** One round of MythTV::Wait, MythTV.cpp:75-96; `wait_for` gives the mutex up and takes it back. */
  function WatchInstr(p: WatchPc): Instr
  {
    match p
    case WLock | WRelock => LockRun
    case WSleep | WUnlock | WUnlockExit => UnlockRun
    case WCheck | WStreaming => Skip
  }

  function WatchNext(c: Control, p: WatchPc, stale: bool): Work
  {
    match p
    case WLock => Watching(WSleep)
    case WSleep => Watching(WRelock)
    case WRelock => Watching(WCheck)
    case WCheck => Watching(if c.run then WUnlock else WUnlockExit)
    case WUnlock => Watching(WStreaming)
    case WUnlockExit => Idle
    case WStreaming => if c.streaming && stale then Fatally("We seem to be wedged!", FLock, Idle) else Idle
  }

  /** The commands answered under m_run_mutex, MythTV.cpp:263-274, 292-300, 360-370, 418-421; the
      last of them does not look at m_fatal. */
  function QueryInstr(k: QueryKind, p: QueryPc): Instr {
    if p.QLock? then LockRun else if p.QUnlock? then UnlockRun else if k.SetVersion? then Skip else Answer(k)
  }

  function QueryNext(k: QueryKind, p: QueryPc): Work {
    if p.QLock? then Querying(k, QSend) else if p.QSend? then Querying(k, QUnlock) else Idle
  }

  /** Buffer::Fill, MythTV.cpp:510-540: a short block or a lock timeout ends it at once. */
  function FillInstr(b: Block, p: FillPc, ok: bool): Instr
  {
    match p
    case LTry => if |b| < 1 || !ok then Skip else LockFlow
    case LPush => Skip
    case LUnlock => UnlockFlow
  }

  function FillNext(b: Block, p: FillPc, ok: bool): Work
  {
    match p
    case LTry => if |b| < 1 || !ok then Idle else Filling(b, LPush)
    case LPush => Filling(b, LUnlock)
    case LUnlock => Idle
  }

  /** The worker is inside a driver call made by StartEncoding, StopEncoding or OpenDev, or deletes a
      device whose driver has been opened, which runs the destructors of the driver. */
  predicate InDriver(w: Work)
  {
    match w
    case Opening(p) => p.ODriver? || p.ODelete?
    case Starting(p) => p.ADriver?
    case Stopping(p) => p.SDriver?
    case Terminating(p) => p.TStop? && p.s.SDriver?
    case Fatally(_, p, _) => p.FTerm? && p.t.TStop? && p.t.s.SDriver?
    case _ => false
  }

  /** The next instruction of a worker. */
  function WorkInstr(w: Work, ch: Choice): Instr
  {
    if InDriver(w) && ch.callback then (if w.Fatally? then Reenter else Skip)
    else
      match w
      case Idle => Skip
      case Opening(p) => OpenInstr(p)
      case Starting(p) => StartInstr(p)
      case Stopping(p) => StopInstr(p)
      case Terminating(p) => TermInstr(p)
      case Watching(p) => WatchInstr(p)
      case Querying(k, p) => QueryInstr(k, p)
      case Filling(b, p) => FillInstr(b, p, ch.ok)
      case Fatally(msg, p, _) => FatalInstr(msg, p)
  }

  /** What the worker does after it. */
  function WorkNext(c: Control, w: Work, ch: Choice): Work
  {
    if InDriver(w) && ch.callback then Fatally(USB_ERROR, FLock, w)
    else
      match w
      case Idle => Idle
      case Opening(p) => OpenNext(c, p, ch)
      case Starting(p) => StartNext(c, p, ch.ok)
      case Stopping(p) => if p.SDone? then Idle else Stopping(StopNext(c, p, ch.ok))
      case Terminating(p) => if p.TDone? then Idle else Terminating(TermNext(c, p, ch.ok))
      case Watching(p) => WatchNext(c, p, ch.ok)
      case Querying(k, p) => QueryNext(k, p)
      case Filling(b, p) => FillNext(b, p, ch.ok)
      case Fatally(msg, p, back) => if p.FUnlock? then back else Fatally(msg, FatalNext(c, p, ch.ok), back)
  }

  /** The critical section of Fill: append, or count a refusal when the queue is full. */
  function PushBlock(m: Media, b: Block): Media {
    if |m.queue| < MAX_QUEUE then
      m.(queue := m.queue + [b], dropped := 0, accepted := m.accepted + [b], offers := m.offers + [Offer(b, true)])
    else
      m.(dropped := m.dropped + 1, offers := m.offers + [Offer(b, false)])
  }

  function OpWork(op: Op): Work
  {
    match op
    case OpOpen => Opening(OLock)
    case OpFatal(m) => Fatally(m, FLock, Idle)
    case OpTerminate => Terminating(TRunFalse)
    case OpStart => Starting(AReadStreaming)
    case OpStop => Stopping(SReadStreaming)
    case OpWatch => Watching(WLock)
    case OpQuery(k) => Querying(k, QLock)
    case OpFill(b) => Filling(b, LTry)
    case OpFlow(_) => Idle
  }

  // ---------------------------------------------------------------- steps of the consumer

  /** Buffer::Run, MythTV.cpp:542-633. */
  function SinkInstr(k: Sink, ok: bool): Instr
  {
    match k.pc
    case CTryLock | CClearTry => if ok then LockFlow else Skip
    case CUnlock | CClearUnlock => UnlockFlow
    case _ => Skip
  }

  function SinkNext(c: Control, m: Media, k: Sink, ok: bool): Sink
  {
    match k.pc
    case CTop => k.(pc := if c.run then (if k.wait then CWait else CStats) else CExit)
    case CWait => k.(pc := CStats, wait := false)
    case CStats => (if ok then Flush(k) else k).(pc := CStreaming)
    case CStreaming => k.(pc := if c.streaming then CXon else CClearTry)
    case CXon => if c.xon then k.(pc := CTryLock, pkt := []) else k.(pc := CTop, wait := true)
    case CTryLock => k.(pc := if ok then CPop else CWrite)
    case CPop =>
      if m.queue == [] then k.(pc := CUnlock)
      else k.(pc := CUnlock, pkt := m.queue[0], isEmpty := |m.queue| == 1)
    case CUnlock => k.(pc := CWrite)
    case CWrite =>
      if k.pkt == [] then k.(pc := CEmpty)
      else k.(pc := CEmpty, written := Add64(k.written, |k.pkt|), writeCnt := Add64(k.writeCnt, 1))
    case CEmpty => if k.isEmpty then k.(pc := CTop, wait := true, emptyCnt := Add64(k.emptyCnt, 1)) else k.(pc := CTop)
    case CClearTry => if ok then k.(pc := CClear) else k.(pc := CTop, wait := true)
    case CClear => k.(pc := CClearUnlock)
    case CClearUnlock => k.(pc := CTop, wait := true)
    case CExit => k
  }

  /** What the consumer's step does to the queue and to the history. */
  function SinkMedia(m: Media, k: Sink): Media
  {
    match k.pc
    case CPop => if m.queue == [] then m else m.(queue := m.queue[1..], left := m.left + [Popped])
    case CWrite => if k.pkt == [] then m else m.(out := m.out + [k.pkt], outIds := m.outIds + [LastLeft(m)])
    case CClear => m.(queue := [], left := m.left + seq(|m.queue|, _ => Swapped))
    case _ => m
  }

  /** The counters of Run are uint64_t. */
  function Add64(a: nat, b: nat): nat { (a + b) % TWO_TO_64 }

  /** The index of the block that left the queue last. */
  function LastLeft(m: Media): nat { if m.left == [] then 0 else |m.left| - 1 }

  /** The statistics block, MythTV.cpp:564-578: the counters are unsigned 64-bit. */
  function Flush(k: Sink): Sink {
    k.(writeTotal := Add64(k.writeTotal, k.written), written := 0, writeCnt := 0, emptyCnt := 0)
  }

  // ---------------------------------------------------------------- the whole system

  predicate Enabled(s: State, a: Action)
  {
    match a
    case Begin(t, op) => t < |s.workers| && s.workers[t].Idle?
    case Go(t, ch) =>
      && t < |s.workers| && !s.workers[t].Idle?
      && (WantsRun(s.workers[t]) ==> s.ctl.runOwner.Free?)
      && (WantsFlow(s.workers[t]) ==> s.ctl.flowOwner.Free?)
      && (s.workers[t].Filling? && s.workers[t].l.LTry? && ch.ok ==> s.ctl.flowOwner.Free?)
    case Consume(ch) =>
      && !s.sink.pc.CExit?
      && ((s.sink.pc.CTryLock? || s.sink.pc.CClearTry?) && ch.ok ==> s.ctl.flowOwner.Free?)
  }

  function Apply(s: State, a: Action): State
    requires Enabled(s, a)
  {
    match a
    case Begin(t, OpFlow(b)) => s.(ctl := s.ctl.(xon := b))
    case Begin(t, op) => s.(workers := s.workers[t := OpWork(op)])
    case Go(t, ch) =>
      var w := s.workers[t];
      s.(ctl := Do(s.ctl, Worker(t), WorkInstr(w, ch)),
         media := if w.Filling? && w.l.LPush? then PushBlock(s.media, w.blk) else s.media,
         workers := s.workers[t := WorkNext(s.ctl, w, ch)])
    case Consume(ch) =>
      s.(ctl := Do(s.ctl, Consumer, SinkInstr(s.sink, ch.ok)),
         media := SinkMedia(s.media, s.sink),
         sink := SinkNext(s.ctl, s.media, s.sink, ch.ok))
  }

  /** The state after the constructor, MythTV.cpp:31-48, with any number of idle workers. */
  predicate Init(s: State)
  {
    && s.ctl == Control(Free, Free, true, false, "", false, false, false, None, {}, false, 0, false, 0, false, [])
    && s.media == Media([], 0, [], [], [], [], [])
    && (forall t | 0 <= t < |s.workers| :: s.workers[t].Idle?)
    && s.sink == Sink(CTop, false, false, [], 0, 0, 0, 0)
  }

  ghost predicate Next(s: State, s': State) {
    exists a :: Enabled(s, a) && s' == Apply(s, a)
  }

  ghost predicate StepAt(tr: seq<State>, i: int)
    requires 0 < i < |tr|
  {
    Next(tr[i - 1], tr[i])
  }

  /** Consecutive states are one step apart. */
  ghost predicate Steps(tr: seq<State>) { forall i | 0 < i < |tr| :: StepAt(tr, i) }

  ghost predicate Run(tr: seq<State>) {
    |tr| > 0 && Init(tr[0]) && Steps(tr)
  }

  lemma {:induction false} StepBefore(tr: seq<State>, i: nat) returns (a: Action)
    requires Run(tr) && 0 < i < |tr|
    ensures Enabled(tr[i - 1], a) && tr[i] == Apply(tr[i - 1], a)
  {
    hide Enabled, Apply, Init;
    assert StepAt(tr, i);
    a :| Enabled(tr[i - 1], a) && tr[i] == Apply(tr[i - 1], a);
  }

  // ---------------------------------------------------------------- the instructions as updates

  lemma {:induction false} DoLockRun(c: Control)
    ensures Do(c, Worker(0), LockRun) == c.(runOwner := Worker(0))
  {
  }

  lemma {:induction false} DoUnlockRun(c: Control)
    ensures Do(c, Worker(0), UnlockRun) == c.(runOwner := Free)
  {
  }

  lemma {:induction false} DoLockFlow(c: Control)
    ensures Do(c, Worker(0), LockFlow) == c.(flowOwner := Worker(0))
  {
  }

  lemma {:induction false} DoUnlockFlow(c: Control)
    ensures Do(c, Worker(0), UnlockFlow) == c.(flowOwner := Free)
  {
  }

  lemma {:induction false} DoNewDev(c: Control)
    ensures Do(c, Worker(0), NewDev)
      == c.(dev := Some(c.made), live := c.live + {c.made}, devErr := false, made := c.made + 1)
  {
  }

  lemma {:induction false} DoFreeDev(c: Control)
    requires Live(c)
    ensures Do(c, Worker(0), FreeDev) == c.(live := c.live - {c.dev.value})
  {
  }

  lemma {:induction false} DoNullDev(c: Control)
    ensures Do(c, Worker(0), NullDev) == c.(dev := None)
  {
  }

  lemma {:induction false} DoSetReady(c: Control)
    ensures Do(c, Worker(0), SetReady) == c.(ready := true)
  {
  }

  lemma {:induction false} DoSetRunFalse(c: Control)
    ensures Do(c, Worker(0), SetRunFalse) == c.(run := false)
  {
  }

  lemma {:induction false} DoSetFatal(c: Control)
    ensures Do(c, Worker(0), SetFatal) == c.(fatal := true)
  {
  }

  lemma {:induction false} DoSetMsg(c: Control, msg: string)
    ensures Do(c, Worker(0), SetMsg(msg)) == c.(fatalMsg := msg, msgWrites := c.msgWrites + 1)
  {
  }

  lemma {:induction false} DoSetStreaming(c: Control, on: bool)
    ensures Do(c, Worker(0), SetStreaming(on)) == c.(streaming := on)
  {
  }

  /** A read, or the use of a live device, changes nothing. */
  lemma {:induction false} DoNothing(c: Control)
    ensures Do(c, Worker(0), Skip) == c
    ensures Live(c) ==> Do(c, Worker(0), Deref) == c
  {
  }
}
