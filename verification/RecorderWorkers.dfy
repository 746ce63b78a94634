/**
  What a single operation of a worker, or a single round of the consumer, comes to when it starts in
  any state of the machine and the others do not move meanwhile.
*/
module RecorderWorkers {
  import opened Option
  import opened RecorderMachine
  import opened RecorderDeadlock

  const HAD := Choice(true, false, "")    // a lock is had in time, a call succeeds
  const NOT_HAD := Choice(false, false, "")

  /** From `s` the actions lead to `s'`. */
  ghost predicate Reaches(s: State, actions: seq<Action>, s': State) {
    exists tr :: Leads(tr, actions) && tr[0] == s && tr[|actions|] == s'
  }

  lemma {:induction false} ReachesItself(s: State)
    ensures Reaches(s, [], s)
  {
    assert Leads([s], []);
  }

  lemma {:induction false} ReachesNext(s: State, actions: seq<Action>, s': State, a: Action)
    requires Reaches(s, actions, s') && Enabled(s', a)
    ensures Reaches(s, actions + [a], Apply(s', a))
  {
    hide Enabled, Apply;
    var tr :| Leads(tr, actions) && tr[0] == s && tr[|actions|] == s';
    var longer := tr + [Apply(s', a)];
    assert Leads(longer, actions + [a]) && longer[0] == s;
  }

  /** The state in which worker `t` is at `w`. */
  function At(s: State, t: nat, c: Control, m: Media, w: Work): State
    requires t < |s.workers|
  {
    State(c, m, s.workers[t := w], s.sink)
  }

  lemma {:induction false} Begins(s: State, t: nat, op: Op)
    requires t < |s.workers| && s.workers[t].Idle? && !op.OpFlow?
    ensures Reaches(s, [Begin(t, op)], At(s, t, s.ctl, s.media, OpWork(op)))
  {
    ReachesItself(s);
    ReachesNext(s, [], s, Begin(t, op));
    assert [] + [Begin(t, op)] == [Begin(t, op)];
  }

  /** One step of worker `t`. */
  lemma {:induction false} Goes(s: State, t: nat, before: seq<Action>, c: Control, m: Media, w: Work, ch: Choice)
    requires t < |s.workers| && Reaches(s, before, At(s, t, c, m, w)) && !w.Idle?
    requires (WantsRun(w) ==> c.runOwner.Free?) && (WantsFlow(w) ==> c.flowOwner.Free?)
    requires w.Filling? && w.l.LTry? && ch.ok ==> c.flowOwner.Free?
    ensures Reaches(s, before + [Go(t, ch)],
                    At(s, t, Do(c, Worker(t), WorkInstr(w, ch)),
                       if w.Filling? && w.l.LPush? then PushBlock(m, w.blk) else m, WorkNext(c, w, ch)))
  {
    hide Do, WorkInstr, WorkNext, PushBlock, WantsRun, WantsFlow, Reaches;
    var s' := At(s, t, c, m, w);
    ReachesNext(s, before, s', Go(t, ch));
    assert s'.workers[t := WorkNext(c, w, ch)] == s.workers[t := WorkNext(c, w, ch)];
  }

  // ---------------------------------------------------------------- Fill

  lemma {:induction false} LockAndGiveBack(c: Control, me: Owner)
    requires c.flowOwner.Free?
    ensures var held := Do(c, me, LockFlow);
      held.flowOwner == me && Do(held, me, Skip) == held && Do(held, me, UnlockFlow) == c && Do(c, me, Skip) == c
  {
    hide Do;
    NothingDone(c, me);
    LocksFlow(c, me);
    NothingDone(c.(flowOwner := me), me);
    UnlocksFlow(c.(flowOwner := me), me);
  }

  lemma {:induction false} LocksFlow(c: Control, me: Owner)
    ensures Do(c, me, LockFlow) == c.(flowOwner := me)
  {
  }

  lemma {:induction false} UnlocksFlow(c: Control, me: Owner)
    ensures Do(c, me, UnlockFlow) == c.(flowOwner := Free)
  {
  }

  lemma {:induction false} IdleAgain(s: State, t: nat, c: Control, m: Media)
    requires t < |s.workers| && s.workers[t].Idle?
    ensures At(s, t, c, m, Idle) == s.(ctl := c, media := m)
  {
  }

  /** Fill with the lock had: the block is offered, and taken as the last accepted and the last queued
      one if fewer than 500 blocks were queued; otherwise it is refused and counted.  Everything else
      is as before. */
  lemma {:induction false} FillOffers(s: State, t: nat, blk: Block)
    requires t < |s.workers| && s.workers[t].Idle? && s.ctl.flowOwner.Free? && blk != []
    ensures var m := s.media;
      Reaches(s, [Begin(t, OpFill(blk)), Go(t, HAD), Go(t, HAD), Go(t, HAD)], s.(media :=
        if |m.queue| < 500 then
          Media(m.queue + [blk], 0, m.accepted + [blk], m.offers + [Offer(blk, true)], m.left, m.outIds, m.out)
        else
          Media(m.queue, m.dropped + 1, m.accepted, m.offers + [Offer(blk, false)], m.left, m.outIds, m.out)))
  {
    hide Do, Reaches, At;
    var m := s.media;
    var pushed := PushBlock(m, blk);
    var held := Do(s.ctl, Worker(t), LockFlow);
    LockAndGiveBack(s.ctl, Worker(t));
    Begins(s, t, OpFill(blk));
    Goes(s, t, [Begin(t, OpFill(blk))], s.ctl, m, Filling(blk, LTry), HAD);
    Goes(s, t, [Begin(t, OpFill(blk))] + [Go(t, HAD)], held, m, Filling(blk, LPush), HAD);
    Goes(s, t, [Begin(t, OpFill(blk))] + [Go(t, HAD)] + [Go(t, HAD)], held, pushed, Filling(blk, LUnlock), HAD);
    IdleAgain(s, t, s.ctl, pushed);
    assert [Begin(t, OpFill(blk))] + [Go(t, HAD)] + [Go(t, HAD)] + [Go(t, HAD)]
      == [Begin(t, OpFill(blk)), Go(t, HAD), Go(t, HAD), Go(t, HAD)];
  }

  /** Without the lock, or with an empty block, Fill changes nothing. */
  lemma {:induction false} FillDoesNothing(s: State, t: nat, blk: Block, ch: Choice)
    requires t < |s.workers| && s.workers[t].Idle? && (blk == [] || !ch.ok) && (ch.ok ==> s.ctl.flowOwner.Free?)
    ensures Reaches(s, [Begin(t, OpFill(blk)), Go(t, ch)], s)
  {
    hide Do, Reaches, At;
    NothingDone(s.ctl, Worker(t));
    Begins(s, t, OpFill(blk));
    Goes(s, t, [Begin(t, OpFill(blk))], s.ctl, s.media, Filling(blk, LTry), ch);
    IdleAgain(s, t, s.ctl, s.media);
    assert [Begin(t, OpFill(blk))] + [Go(t, ch)] == [Begin(t, OpFill(blk)), Go(t, ch)];
  }

  lemma {:induction false} NothingDone(c: Control, me: Owner)
    ensures Do(c, me, Skip) == c
  {
  }

  // ---------------------------------------------------------------- the guarded commands

  lemma {:induction false} LockRunAndGiveBack(c: Control, me: Owner)
    requires c.runOwner.Free?
    ensures var held := Do(c, me, LockRun);
      && held == c.(runOwner := me)
      && Do(held, me, Skip) == held && Do(held, me, UnlockRun) == c && Do(c, me, Skip) == c
  {
    hide Do;
    NothingDone(c, me);
    LocksRun(c, me);
    NothingDone(c.(runOwner := me), me);
    UnlocksRun(c.(runOwner := me), me);
  }

  lemma {:induction false} LocksRun(c: Control, me: Owner)
    ensures Do(c, me, LockRun) == c.(runOwner := me)
  {
  }

  lemma {:induction false} UnlocksRun(c: Control, me: Owner)
    ensures Do(c, me, UnlockRun) == c.(runOwner := Free)
  {
  }

  /** The answer to a guarded command is recorded; APIVersion:N has none. */
  function Told(c: Control, k: QueryKind): Control
  {
    if k.SetVersion? then c
    else c.(replies := c.replies + [if c.fatal then Err(c.fatalMsg) else Fine(k, c.ready)])
  }

  lemma {:induction false} TellsUnderLock(c: Control, me: Owner, k: QueryKind)
    requires c.runOwner.Free?
    ensures var held := Do(c, me, LockRun);
      Do(Do(held, me, QueryInstr(k, QSend)), me, UnlockRun) == Told(c, k)
  {
  }

  /** APIVersion?, Version? and IsOpen? are answered with the fatal error if there is one, and
      otherwise by whether the recorder is ready; APIVersion:N asks for neither. */
  lemma {:induction false} QueryAnswers(s: State, t: nat, k: QueryKind)
    requires t < |s.workers| && s.workers[t].Idle? && s.ctl.runOwner.Free?
    ensures
      Reaches(s, [Begin(t, OpQuery(k)), Go(t, HAD), Go(t, HAD), Go(t, HAD)], s.(ctl := s.ctl.(replies :=
        if k.SetVersion? then s.ctl.replies
        else s.ctl.replies + [if s.ctl.fatal then Err(s.ctl.fatalMsg) else Fine(k, s.ctl.ready)])))
  {
    var c := s.ctl;
    assert Told(c, k) == c.(replies :=
      if k.SetVersion? then c.replies else c.replies + [if c.fatal then Err(c.fatalMsg) else Fine(k, c.ready)]);
    QueryTells(s, t, k);
  }

  lemma {:induction false} QueryTells(s: State, t: nat, k: QueryKind)
    requires t < |s.workers| && s.workers[t].Idle? && s.ctl.runOwner.Free?
    ensures Reaches(s, [Begin(t, OpQuery(k)), Go(t, HAD), Go(t, HAD), Go(t, HAD)], s.(ctl := Told(s.ctl, k)))
  {
    hide Do, Reaches, At, Told;
    var held := Do(s.ctl, Worker(t), LockRun);
    var told := Do(held, Worker(t), QueryInstr(k, QSend));
    TellsUnderLock(s.ctl, Worker(t), k);
    Begins(s, t, OpQuery(k));
    Goes(s, t, [Begin(t, OpQuery(k))], s.ctl, s.media, Querying(k, QLock), HAD);
    Goes(s, t, [Begin(t, OpQuery(k))] + [Go(t, HAD)], held, s.media, Querying(k, QSend), HAD);
    Goes(s, t, [Begin(t, OpQuery(k))] + [Go(t, HAD)] + [Go(t, HAD)], told, s.media, Querying(k, QUnlock), HAD);
    IdleAgain(s, t, Told(s.ctl, k), s.media);
    assert [Begin(t, OpQuery(k))] + [Go(t, HAD)] + [Go(t, HAD)] + [Go(t, HAD)]
      == [Begin(t, OpQuery(k)), Go(t, HAD), Go(t, HAD), Go(t, HAD)];
  }

  /** In any state, whatever interleaves: a reply is recorded only by a guarded command that owns the
      run mutex, and it tells the fatal error and m_ready as they are at that moment. */
  lemma {:induction false} RepliesAreTrue(s: State, a: Action)
    requires Enabled(s, a) && Apply(s, a).ctl.replies != s.ctl.replies
    ensures a.Go? && s.workers[a.t].Querying? && s.workers[a.t].q.QSend?
    ensures Apply(s, a).ctl.replies == s.ctl.replies + [
      if s.ctl.fatal then Err(s.ctl.fatalMsg) else Fine(s.workers[a.t].kind, s.ctl.ready)]
  {
  }

  // ---------------------------------------------------------------- the watchdog, XON and XOFF

  /** A round of the watchdog: it ends for good when m_run is false, and otherwise reports a wedge
      exactly if the recorder is streaming and the heartbeat is stale. */
  lemma {:induction false} WatchdogRound(s: State, t: nat, stale: bool)
    requires t < |s.workers| && s.workers[t].Idle? && s.ctl.runOwner.Free?
    ensures
      var round := [Begin(t, OpWatch), Go(t, HAD), Go(t, HAD), Go(t, HAD), Go(t, HAD), Go(t, HAD)];
      if !s.ctl.run then Reaches(s, round, s)
      else Reaches(s, round + [Go(t, Choice(stale, false, ""))],
                   if s.ctl.streaming && stale
                   then s.(workers := s.workers[t := Fatally("We seem to be wedged!", FLock, Idle)]) else s)
  {
    hide Do, Reaches, At;
    var c, held := s.ctl, Do(s.ctl, Worker(t), LockRun);
    var checked := Watching(if c.run then WUnlock else WUnlockExit);
    LockRunAndGiveBack(c, Worker(t));
    Begins(s, t, OpWatch);
    var acts := [Begin(t, OpWatch)];
    Goes(s, t, acts, c, s.media, Watching(WLock), HAD);
    Goes(s, t, acts + [Go(t, HAD)], held, s.media, Watching(WSleep), HAD);
    acts := acts + [Go(t, HAD)] + [Go(t, HAD)];
    Goes(s, t, acts, c, s.media, Watching(WRelock), HAD);
    Goes(s, t, acts + [Go(t, HAD)], held, s.media, Watching(WCheck), HAD);
    acts := acts + [Go(t, HAD)] + [Go(t, HAD)];
    Goes(s, t, acts, held, s.media, checked, HAD);
    acts := acts + [Go(t, HAD)];
    assert acts == [Begin(t, OpWatch), Go(t, HAD), Go(t, HAD), Go(t, HAD), Go(t, HAD), Go(t, HAD)];
    IdleAgain(s, t, c, s.media);
    if c.run {
      Goes(s, t, acts, c, s.media, Watching(WStreaming), Choice(stale, false, ""));
      Elsewhere(s, t, Fatally("We seem to be wedged!", FLock, Idle));
    }
  }

  lemma {:induction false} Elsewhere(s: State, t: nat, w: Work)
    requires t < |s.workers|
    ensures At(s, t, s.ctl, s.media, w) == s.(workers := s.workers[t := w])
  {
  }

  /** XON and XOFF set m_xon and nothing else. */
  lemma {:induction false} FlowSetsXon(s: State, t: nat, on: bool)
    requires t < |s.workers| && s.workers[t].Idle?
    ensures Enabled(s, Begin(t, OpFlow(on))) && Apply(s, Begin(t, OpFlow(on))) == s.(ctl := s.ctl.(xon := on))
  {
  }

  // ---------------------------------------------------------------- the error callback

  /** The driver calls: those that open, start and stop a device, wherever the stop was called from,
      and the deletion of a device whose driver was opened. */
  predicate CallsDriver(w: Work)
  {
    || (w.Opening? && (w.o.ODriver? || w.o == ODelete))
    || (w.Starting? && w.a.ADriver?)
    || (w.Stopping? && w.s.SDriver?)
    || (w.Terminating? && w.t.TStop? && w.t.s.SDriver?)
    || (w.Fatally? && w.f.FTerm? && w.f.t.TStop? && w.f.t.s.SDriver?)
  }

  /** Any of them may report a USB error at any time, which runs Fatal on that thread and then goes on
      with the call. */
  lemma {:induction false} CallbackRunsFatal(s: State, t: nat, text: string)
    requires t < |s.workers| && CallsDriver(s.workers[t])
    ensures var a := Go(t, Choice(true, true, text)); var w := s.workers[t];
      && Enabled(s, a)
      && Apply(s, a).workers == s.workers[t := Fatally("Detected Error with USB.", FLock, w)]
      && Apply(s, a).ctl == s.ctl.(nested := s.ctl.nested || w.Fatally?)
  {
    hide PushBlock;
  }

  // ---------------------------------------------------------------- the consumer

  /** One step of the consumer. */
  lemma {:induction false} Consumes(s: State, before: seq<Action>, s': State, ch: Choice)
    requires Reaches(s, before, s') && !s'.sink.pc.CExit?
    requires (s'.sink.pc.CTryLock? || s'.sink.pc.CClearTry?) && ch.ok ==> s'.ctl.flowOwner.Free?
    ensures Reaches(s, before + [Consume(ch)],
                    State(Do(s'.ctl, Consumer, SinkInstr(s'.sink, ch.ok)), SinkMedia(s'.media, s'.sink),
                          s'.workers, SinkNext(s'.ctl, s'.media, s'.sink, ch.ok)))
  {
    hide Do, SinkInstr, SinkMedia, SinkNext, Reaches;
    ReachesNext(s, before, s', Consume(ch));
  }

  /** After the tests of m_streaming and m_xon the consumer locks the queue. */
  lemma {:induction false} ConsumerLocks(s: State)
    requires s.sink.pc.CStreaming? && s.ctl.streaming && s.ctl.xon && s.ctl.flowOwner.Free?
    ensures Reaches(s, [Consume(HAD), Consume(HAD), Consume(HAD)],
                    State(Do(s.ctl, Consumer, LockFlow), s.media, s.workers, s.sink.(pc := CPop, pkt := [])))
  {
    hide Do, Reaches, Flush, Add64, SinkMedia;
    var (c, m, k) := (s.ctl, s.media, s.sink);
    NothingDone(c, Consumer);
    KeepsQueue(m, k);
    KeepsQueue(m, k.(pc := CXon));
    KeepsQueue(m, k.(pc := CTryLock, pkt := []));
    ReachesItself(s);
    Consumes(s, [], s, HAD);
    Consumes(s, [] + [Consume(HAD)], State(c, m, s.workers, k.(pc := CXon)), HAD);
    Consumes(s, [] + [Consume(HAD)] + [Consume(HAD)], State(c, m, s.workers, k.(pc := CTryLock, pkt := [])), HAD);
    assert [] + [Consume(HAD)] + [Consume(HAD)] + [Consume(HAD)] == [Consume(HAD), Consume(HAD), Consume(HAD)];
  }

  lemma {:induction false} KeepsQueue(m: Media, k: Sink)
    requires k.pc.CStreaming? || k.pc.CXon? || k.pc.CTryLock? || k.pc.CUnlock?
    ensures SinkMedia(m, k) == m
  {
  }

  /** From the test of m_streaming on, with the flow on and the lock had: the first queued block is
      taken off the queue and written. */
  lemma {:induction false} ConsumerWrites(s: State)
    requires s.sink.pc.CStreaming? && s.ctl.streaming && s.ctl.xon && s.ctl.flowOwner.Free?
    requires s.media.queue != [] && s.media.queue[0] != []
    ensures exists s' ::
      && Reaches(s, [Consume(HAD), Consume(HAD), Consume(HAD), Consume(HAD), Consume(HAD), Consume(HAD)], s')
      && s'.ctl == s.ctl && s'.workers == s.workers && s'.sink.pc.CEmpty?
      && s'.media.queue == s.media.queue[1..] && s'.media.out == s.media.out + [s.media.queue[0]]
      && s'.sink.isEmpty == (|s.media.queue| == 1)
  {
    hide Do, Reaches, Flush, Add64;
    var (c, m) := (s.ctl, s.media);
    var held := Do(c, Consumer, LockFlow);
    LockAndGiveBack(c, Consumer);
    var k3 := s.sink.(pc := CPop, pkt := []);
    var m4 := SinkMedia(m, k3);
    var k4 := k3.(pc := CUnlock, pkt := m.queue[0], isEmpty := |m.queue| == 1);
    ConsumerLocks(s);
    var acts := [Consume(HAD), Consume(HAD), Consume(HAD)];
    Consumes(s, acts, State(held, m, s.workers, k3), HAD);
    Consumes(s, acts + [Consume(HAD)], State(held, m4, s.workers, k4), HAD);
    Consumes(s, acts + [Consume(HAD)] + [Consume(HAD)], State(c, m4, s.workers, k4.(pc := CWrite)), HAD);
    assert acts + [Consume(HAD)] + [Consume(HAD)] + [Consume(HAD)]
      == [Consume(HAD), Consume(HAD), Consume(HAD), Consume(HAD), Consume(HAD), Consume(HAD)];
  }

  /** Not streaming, with the lock had: the queue is emptied and nothing is written. */
  lemma {:induction false} ConsumerClears(s: State)
    requires s.sink.pc.CStreaming? && !s.ctl.streaming && s.ctl.flowOwner.Free?
    ensures exists s' ::
      && Reaches(s, [Consume(HAD), Consume(HAD), Consume(HAD), Consume(HAD)], s')
      && s'.ctl == s.ctl && s'.workers == s.workers && s'.sink.pc.CTop? && s'.sink.wait
      && s'.media.queue == [] && s'.media.out == s.media.out && s'.media.accepted == s.media.accepted
      && |s'.media.left| == |s.media.left| + |s.media.queue|
  {
    hide Do, Reaches, Flush, Add64;
    var (c, m, k) := (s.ctl, s.media, s.sink);
    var held := Do(c, Consumer, LockFlow);
    LockAndGiveBack(c, Consumer);
    var k2 := k.(pc := CClear);
    var m3 := SinkMedia(m, k2);
    ReachesItself(s);
    var acts := [];
    Consumes(s, acts, s, HAD);
    acts := acts + [Consume(HAD)];
    Consumes(s, acts, State(c, m, s.workers, k.(pc := CClearTry)), HAD);
    acts := acts + [Consume(HAD)];
    Consumes(s, acts, State(held, m, s.workers, k2), HAD);
    acts := acts + [Consume(HAD)];
    Consumes(s, acts, State(held, m3, s.workers, k.(pc := CClearUnlock)), HAD);
    acts := acts + [Consume(HAD)];
    assert acts == [Consume(HAD), Consume(HAD), Consume(HAD), Consume(HAD)];
  }
}
