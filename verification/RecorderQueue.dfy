/**
  The packet queue between `Buffer::Fill`, which any number of threads may call, and the one
  consumer of `Buffer::Run`: first in first out, every block accounted for, at most MAX_QUEUE
  blocks, exact byte counters, and a bounded overrun once streaming stops or XOFF arrives.
*/
module RecorderQueue {
  import opened RecorderMachine
  import opened RecorderInvariant

  // ---------------------------------------------------------------- the invariant

  /** A block has been popped and not yet written. */
  predicate InHand(k: Sink) { (k.pc.CUnlock? || k.pc.CWrite?) && k.pkt != [] }

  /** The blocks left the queue in acceptance order, and the queue is the rest of them. */
  predicate Suffix(m: Media)
  {
    && |m.left| + |m.queue| == |m.accepted|
    && m.queue == m.accepted[|m.left|..]
    && |m.queue| <= MAX_QUEUE
    && (forall i | 0 <= i < |m.accepted| :: m.accepted[i] != [])
  }

  /** What was written is what was popped, in order, up to the block in hand. */
  predicate Written(m: Media, k: Sink)
  {
    && |m.out| == |m.outIds|
    && (forall i | 0 <= i < |m.outIds| :: m.outIds[i] < |m.left| && m.left[m.outIds[i]].Popped?)
    && (forall i | 0 <= i < |m.outIds| :: m.outIds[i] < |m.accepted| && m.out[i] == m.accepted[m.outIds[i]])
    && (forall i, j | 0 <= i < j < |m.outIds| :: m.outIds[i] < m.outIds[j])
    && (InHand(k) ==>
          && |m.left| > 0 && m.left[|m.left| - 1].Popped?
          && |m.left| <= |m.accepted| && k.pkt == m.accepted[|m.left| - 1]
          && (|m.left| - 1) !in m.outIds)
    && (k.pc.CTryLock? || k.pc.CPop? ==> k.pkt == [])
  }

  predicate Complete(m: Media, k: Sink)
  {
    forall i | 0 <= i < |m.left| && m.left[i].Popped? :: i in m.outIds || (InHand(k) && i == |m.left| - 1)
  }

  function Bytes(bs: seq<Block>): nat {
    if bs == [] then 0 else Bytes(bs[..|bs| - 1]) + |bs[|bs| - 1]|
  }

  /** The statistics counters against the bytes handed to write(1, ...), all modulo 2^64. */
  predicate Counted(m: Media, k: Sink) {
    Add64(k.writeTotal, k.written) == Bytes(m.out) % TWO_TO_64
  }

  /** The blocks that there was room for. */
  function Taken(offers: seq<Offer>): seq<Block>
  {
    if offers == [] then []
    else
      var last := offers[|offers| - 1];
      Taken(offers[..|offers| - 1]) + if last.taken then [last.blk] else []
  }

  /** The number of offers after the last one that was taken. */
  function RefusedSince(offers: seq<Offer>): nat {
    if offers == [] || offers[|offers| - 1].taken then 0 else 1 + RefusedSince(offers[..|offers| - 1])
  }

  /** The accepted blocks and the overrun counter against the log of offers. */
  predicate Logged(m: Media) {
    m.accepted == Taken(m.offers) && m.dropped == RefusedSince(m.offers)
  }

  predicate QueueInv(m: Media, k: Sink) {
    Suffix(m) && Written(m, k) && Complete(m, k) && Counted(m, k) && Logged(m)
  }

  // ---------------------------------------------------------------- its preservation

  lemma {:induction false} PushKeeps(m: Media, k: Sink, b: Block)
    requires QueueInv(m, k) && b != []
    ensures QueueInv(PushBlock(m, b), k)
  {
    hide Logged;
    PushIsLogged(m, b);
  }

  lemma {:induction false} PushIsLogged(m: Media, b: Block)
    requires Logged(m)
    ensures Logged(PushBlock(m, b))
  {
    assert forall o :: (m.offers + [o])[..|m.offers|] == m.offers;
  }

  /** The refusals counted are the last offers, and the one before them was taken. */
  lemma {:induction false} RefusedAreLast(offers: seq<Offer>)
    ensures var n := RefusedSince(offers);
      && n <= |offers|
      && (forall i | |offers| - n <= i < |offers| :: !offers[i].taken)
      && (n < |offers| ==> offers[|offers| - n - 1].taken)
  {
    if offers == [] || offers[|offers| - 1].taken {
    } else {
      RefusedAreLast(offers[..|offers| - 1]);
    }
  }

  lemma {:induction false} SinkKeepsSuffix(c: Control, m: Media, k: Sink, ok: bool)
    requires QueueInv(m, k)
    ensures Suffix(SinkMedia(m, k))
  {
  }

  lemma {:induction false} SinkKeepsLogged(m: Media, k: Sink)
    requires Logged(m)
    ensures Logged(SinkMedia(m, k))
  {
    hide Taken, RefusedSince;
  }

  lemma {:induction false} PopKeepsWritten(c: Control, m: Media, k: Sink, ok: bool)
    requires QueueInv(m, k) && k.pc.CPop?
    ensures Written(SinkMedia(m, k), SinkNext(c, m, k, ok))
  {
    hide Complete, Counted, Add64;
  }

  lemma {:induction false} WriteKeepsWritten(c: Control, m: Media, k: Sink, ok: bool)
    requires QueueInv(m, k) && k.pc.CWrite?
    ensures Written(SinkMedia(m, k), SinkNext(c, m, k, ok))
  {
    hide Complete, Counted, Logged, Suffix, Written;
    var k' := SinkNext(c, m, k, ok);
    if k.pkt == [] {
      CarryWritten(m, k, k');
    } else {
      OneMoreWritten(m, k, k');
    }
  }

  lemma {:induction false} OneMoreWritten(m: Media, k: Sink, k': Sink)
    requires Written(m, k) && k.pc.CWrite? && k.pkt != [] && k'.pc.CEmpty?
    ensures Written(m.(out := m.out + [k.pkt], outIds := m.outIds + [LastLeft(m)]), k')
  {
    forall i | 0 <= i < |m.outIds| ensures m.outIds[i] < |m.left| - 1 {
      assert m.outIds[i] in m.outIds;
    }
  }

  lemma {:induction false} SinkKeepsWritten(c: Control, m: Media, k: Sink, ok: bool)
    requires QueueInv(m, k)
    ensures Written(SinkMedia(m, k), SinkNext(c, m, k, ok))
  {
    hide QueueInv, Complete, Suffix, Counted;
    if k.pc.CPop? {
      PopKeepsWritten(c, m, k, ok);
    } else if k.pc.CWrite? {
      WriteKeepsWritten(c, m, k, ok);
    } else {
      OthersKeepWritten(c, m, k, ok);
    }
  }

  lemma {:induction false} CarryWritten(m: Media, k: Sink, k': Sink)
    requires Written(m, k)
    requires InHand(k') ==> InHand(k) && k'.pkt == k.pkt
    requires k'.pc.CTryLock? || k'.pc.CPop? ==> k'.pkt == []
    ensures Written(m, k')
  {
  }

  lemma {:induction false} ClearKeepsWritten(c: Control, m: Media, k: Sink, ok: bool)
    requires Written(m, k) && k.pc.CClear?
    ensures Written(SinkMedia(m, k), SinkNext(c, m, k, ok))
  {
  }

  lemma {:induction false} OthersKeepWritten(c: Control, m: Media, k: Sink, ok: bool)
    requires QueueInv(m, k) && !k.pc.CPop? && !k.pc.CWrite?
    ensures Written(SinkMedia(m, k), SinkNext(c, m, k, ok))
  {
    if k.pc.CClear? {
      ClearKeepsWritten(c, m, k, ok);
    } else {
      HandKept(c, m, k, ok);
      CarryWritten(m, k, SinkNext(c, m, k, ok));
    }
  }

  lemma {:induction false} HandKept(c: Control, m: Media, k: Sink, ok: bool)
    requires k.pc.CTryLock? ==> k.pkt == []
    requires !k.pc.CPop?
    ensures var k' := SinkNext(c, m, k, ok);
      && (InHand(k') ==> InHand(k) && k'.pkt == k.pkt)
      && (k'.pc.CTryLock? || k'.pc.CPop? ==> k'.pkt == [])
  {
  }

  lemma {:induction false} SinkKeepsComplete(c: Control, m: Media, k: Sink, ok: bool)
    requires QueueInv(m, k)
    ensures Complete(SinkMedia(m, k), SinkNext(c, m, k, ok))
  {
    hide Suffix, Counted, Logged, Complete;
    if k.pc.CPop? {
      PopKeepsComplete(c, m, k, ok);
    } else if k.pc.CWrite? {
      WriteKeepsComplete(c, m, k, ok);
    } else {
      OthersKeepComplete(c, m, k, ok);
    }
  }

  lemma {:induction false} PopKeepsComplete(c: Control, m: Media, k: Sink, ok: bool)
    requires QueueInv(m, k) && k.pc.CPop?
    ensures Complete(SinkMedia(m, k), SinkNext(c, m, k, ok))
  {
    hide Counted, Logged, Written;
  }

  lemma {:induction false} WriteKeepsComplete(c: Control, m: Media, k: Sink, ok: bool)
    requires Written(m, k) && Complete(m, k) && k.pc.CWrite?
    ensures Complete(SinkMedia(m, k), SinkNext(c, m, k, ok))
  {
    var ids := m.outIds + [LastLeft(m)];
    assert forall i | i in m.outIds :: i in ids;
    assert LastLeft(m) in ids;
  }

  lemma {:induction false} OthersKeepComplete(c: Control, m: Media, k: Sink, ok: bool)
    requires Complete(m, k) && !k.pc.CPop? && !k.pc.CWrite?
    ensures Complete(SinkMedia(m, k), SinkNext(c, m, k, ok))
  {
  }

  lemma {:induction false} AddMod(total: nat, written: nat, n: nat, bytes: nat)
    requires Add64(total, written) == bytes % TWO_TO_64
    ensures Add64(total, Add64(written, n)) == (bytes + n) % TWO_TO_64
  {
  }

  lemma {:induction false} FlushKeeps(k: Sink)
    ensures Add64(Flush(k).writeTotal, Flush(k).written) == Add64(k.writeTotal, k.written)
  {
  }

  lemma {:induction false} SinkKeepsCounted(c: Control, m: Media, k: Sink, ok: bool)
    requires Counted(m, k)
    ensures Counted(SinkMedia(m, k), SinkNext(c, m, k, ok))
  {
    hide Add64, SinkNext, SinkMedia, Bytes, Flush;
    SinkCounts(c, m, k, ok);
    if k.pc.CStats? && ok {
      FlushKeeps(k);
    } else if k.pc.CWrite? && k.pkt != [] {
      BytesAppend(m.out, k.pkt);
      AddMod(k.writeTotal, k.written, |k.pkt|, Bytes(m.out));
    }
  }

  lemma {:induction false} BytesAppend(bs: seq<Block>, b: Block)
    ensures Bytes(bs + [b]) == Bytes(bs) + |b|
  {
    assert (bs + [b])[..|bs|] == bs;
  }

  /** Only the statistics and a write touch the counters and what was written. */
  lemma {:induction false} SinkCounts(c: Control, m: Media, k: Sink, ok: bool)
    ensures var (m', k') := (SinkMedia(m, k), SinkNext(c, m, k, ok));
      if k.pc.CStats? && ok then
        m'.out == m.out && k'.writeTotal == Flush(k).writeTotal && k'.written == Flush(k).written
      else if k.pc.CWrite? && k.pkt != [] then
        m'.out == m.out + [k.pkt] && k'.writeTotal == k.writeTotal && k'.written == Add64(k.written, |k.pkt|)
      else m'.out == m.out && k'.writeTotal == k.writeTotal && k'.written == k.written
  {
    hide Add64;
  }

  lemma {:induction false} QueueInvAfter(s: State, a: Action)
    requires QueueInv(s.media, s.sink) && BlocksNonEmpty(s) && Enabled(s, a)
    ensures var s' := Apply(s, a); QueueInv(s'.media, s'.sink) && BlocksNonEmpty(s')
  {
    var s' := Apply(s, a);
    match a
    case Begin(_, _) =>
    case Go(t, ch) =>
      var w := s.workers[t];
      BlockKept(s.ctl, w, ch);
      if w.Filling? && w.l.LPush? {
        PushKeeps(s.media, s.sink, w.blk);
      }
    case Consume(ch) =>
      SinkKeepsLogged(s.media, s.sink);
      SinkKeepsSuffix(s.ctl, s.media, s.sink, ch.ok);
      SinkKeepsWritten(s.ctl, s.media, s.sink, ch.ok);
      SinkKeepsComplete(s.ctl, s.media, s.sink, ch.ok);
      SinkKeepsCounted(s.ctl, s.media, s.sink, ch.ok);
  }

  /** Fill never holds the lock for an empty block. */
  predicate BlocksNonEmpty(s: State) {
    forall t | 0 <= t < |s.workers| :: NonEmptyAt(s.workers[t])
  }

  predicate NonEmptyAt(w: Work)
  {
    match w
    case Filling(b, p) => p.LTry? || b != []
    case Fatally(_, _, back) => NonEmptyAt(back)
    case _ => true
  }

  lemma {:induction false} BlockKept(c: Control, w: Work, ch: Choice)
    requires NonEmptyAt(w)
    ensures NonEmptyAt(WorkNext(c, w, ch))
  {
  }

  lemma {:induction false} QueueInvOfRun(tr: seq<State>, i: nat)
    requires Run(tr) && i < |tr|
    ensures QueueInv(tr[i].media, tr[i].sink) && BlocksNonEmpty(tr[i])
  {
    if i == 0 {
    } else {
      hide *;
      QueueInvOfRun(tr, i - 1);
      var a := StepBefore(tr, i);
      QueueInvAfter(tr[i - 1], a);
    }
  }

  // ---------------------------------------------------------------- what it means

  /** The worker is at the push of Fill. */
  predicate AtQueue(w: Work) { w.Filling? && w.l.LPush? }

  /** What became of the accepted block number `i`. */
  predicate IsWritten(s: State, i: nat) { i in s.media.outIds }

  predicate IsInHand(s: State, i: nat) { InHand(s.sink) && i == |s.media.left| - 1 }

  predicate IsQueued(s: State, i: nat) { |s.media.left| <= i < |s.media.accepted| }

  predicate IsCleared(s: State, i: nat) { i < |s.media.left| && s.media.left[i].Swapped? }

  function One(b: bool): nat { if b then 1 else 0 }

  /** Each accepted block is in exactly one of written, in hand, queued and cleared. */
  lemma {:induction false} EveryBlockOnce(tr: seq<State>, n: nat, i: nat)
    requires Run(tr) && n < |tr| && i < |tr[n].media.accepted|
    ensures One(IsWritten(tr[n], i)) + One(IsInHand(tr[n], i)) + One(IsQueued(tr[n], i)) + One(IsCleared(tr[n], i)) == 1
  {
    hide Run, QueueInv;
    QueueInvOfRun(tr, n);
    FateIsUnique(tr[n], i);
  }

  lemma {:induction false} FateIsUnique(s: State, i: nat)
    requires QueueInv(s.media, s.sink) && i < |s.media.accepted|
    ensures One(IsWritten(s, i)) + One(IsInHand(s, i)) + One(IsQueued(s, i)) + One(IsCleared(s, i)) == 1
  {
    hide Counted;
  }

  /** The queue is the tail of what was accepted, bounded and without empty blocks; what was
      written is accepted blocks in strictly increasing acceptance order. */
  lemma {:induction false} FirstInFirstOut(tr: seq<State>, n: nat)
    requires Run(tr) && n < |tr|
    ensures var m := tr[n].media;
      && |m.left| + |m.queue| == |m.accepted| && m.queue == m.accepted[|m.left|..]
      && |m.queue| <= 500 && [] !in m.queue
      && |m.out| == |m.outIds|
      && (forall i | 0 <= i < |m.out| :: m.outIds[i] < |m.accepted| && m.out[i] == m.accepted[m.outIds[i]])
      && (forall i, j | 0 <= i < j < |m.out| :: m.outIds[i] < m.outIds[j])
  {
    hide Run;
    QueueInvOfRun(tr, n);
  }

  /** A Fill that has the lock loses its block only to a full queue; otherwise the block becomes the
      last one accepted and the last one queued. */
  lemma {:induction false} FillLosesOnlyToFull(tr: seq<State>, n: nat, t: nat, ch: Choice)
    requires Run(tr) && n < |tr| && Enabled(tr[n], Go(t, ch)) && AtQueue(tr[n].workers[t])
    ensures var s, m' := tr[n], Apply(tr[n], Go(t, ch)).media; var blk := s.workers[t].blk;
      && blk != []
      && (|s.media.queue| < 500 ==> m'.accepted == s.media.accepted + [blk] && m'.queue == s.media.queue + [blk])
      && (|s.media.queue| >= 500 ==>
            |s.media.queue| == 500 && m'.accepted == s.media.accepted
            && m'.offers == s.media.offers + [Offer(blk, false)])
  {
    hide Run;
    QueueInvOfRun(tr, n);
    assert NonEmptyAt(tr[n].workers[t]);
  }

  /** The statistics are exact modulo 2^64 across every flush; the accepted blocks are the offered
      ones that were taken, and the overrun counter is the number of offers since the last of them. */
  lemma {:induction false} CountersAreExact(tr: seq<State>, n: nat)
    requires Run(tr) && n < |tr|
    ensures var m, k := tr[n].media, tr[n].sink;
      && (k.writeTotal + k.written) % 0x1_0000_0000_0000_0000 == Bytes(m.out) % 0x1_0000_0000_0000_0000
      && m.accepted == Taken(m.offers)
      && m.dropped <= |m.offers|
      && (forall i | |m.offers| - m.dropped <= i < |m.offers| :: !m.offers[i].taken)
      && (m.dropped < |m.offers| ==> m.offers[|m.offers| - m.dropped - 1].taken)
  {
    hide Run, Taken;
    QueueInvOfRun(tr, n);
    RefusedAreLast(tr[n].media.offers);
  }

  /** A block was popped that has not been written. */
  predicate Outstanding(m: Media) {
    |m.left| > 0 && m.left[|m.left| - 1].Popped? && (|m.left| - 1) !in m.outIds
  }

  lemma {:induction false} TestIffOutstanding(m: Media, k: Sink)
    requires Written(m, k) && Complete(m, k) && k.pc.CWrite?
    ensures k.pkt != [] <==> Outstanding(m)
  {
  }

  /** The emptiness test of Run writes exactly the popped blocks: after the try for the lock `pkt`
      is empty unless this round popped a block, and no popped block is ever left behind. */
  lemma {:induction false} TestMeansPopped(tr: seq<State>, n: nat)
    requires Run(tr) && n < |tr|
    ensures tr[n].sink.pc.CWrite? ==> (tr[n].sink.pkt != [] <==> Outstanding(tr[n].media))
    ensures tr[n].sink.pc.CTop? ==> !Outstanding(tr[n].media)
  {
    hide Run;
    QueueInvOfRun(tr, n);
    if tr[n].sink.pc.CWrite? {
      TestIffOutstanding(tr[n].media, tr[n].sink);
    }
  }

  /** At most one thread is at an access to the queue, so each access is atomic. */
  lemma {:induction false} AccessIsExclusive(tr: seq<State>, n: nat, t: nat, u: nat)
    requires Run(tr) && n < |tr| && t < |tr[n].workers| && u < |tr[n].workers|
    requires AtQueue(tr[n].workers[t])
    ensures AtQueue(tr[n].workers[u]) ==> t == u
    ensures !tr[n].sink.pc.CPop? && !tr[n].sink.pc.CClear?
  {
    hide Run;
    InvOfRun(tr, n);
  }

  // ---------------------------------------------------------------- bounded overrun

  /** The consumer has passed the test of m_streaming, or of m_xon, and may still write. */
  predicate PastStreaming(k: Sink) { k.pc.CXon? || PastXon(k) }

  predicate PastXon(k: Sink) { k.pc.CTryLock? || k.pc.CPop? || k.pc.CUnlock? || k.pc.CWrite? }

  lemma {:induction false} OverrunStep(s: State, a: Action)
    requires Enabled(s, a)
    ensures var s' := Apply(s, a);
      && s.media.out <= s'.media.out
      && (!s.ctl.streaming ==>
            |s'.media.out| + One(PastStreaming(s'.sink)) <= |s.media.out| + One(PastStreaming(s.sink)))
      && (!s.ctl.xon ==> |s'.media.out| + One(PastXon(s'.sink)) <= |s.media.out| + One(PastXon(s.sink)))
  {
  }

  /** After m_streaming became false with no later start the consumer writes at most one block
      more, and none if it had not yet passed the test. */
  lemma {:induction false} OverrunAfterStop(tr: seq<State>, i: nat, j: nat)
    requires Run(tr) && i <= j < |tr|
    requires forall n | i <= n <= j :: !tr[n].ctl.streaming
    ensures |tr[j].media.out| + One(PastStreaming(tr[j].sink)) <= |tr[i].media.out| + One(PastStreaming(tr[i].sink))
    ensures |tr[j].media.out| <= |tr[i].media.out| + 1
    decreases j
  {
    hide Run, Enabled, Apply, PastStreaming;
    if i == j {
    } else {
      OverrunAfterStop(tr, i, j - 1);
      var a := StepBefore(tr, j);
      OverrunStep(tr[j - 1], a);
    }
  }

  /** The same after XOFF with no later XON. */
  lemma {:induction false} OverrunAfterXoff(tr: seq<State>, i: nat, j: nat)
    requires Run(tr) && i <= j < |tr|
    requires forall n | i <= n <= j :: !tr[n].ctl.xon
    ensures |tr[j].media.out| + One(PastXon(tr[j].sink)) <= |tr[i].media.out| + One(PastXon(tr[i].sink))
    ensures |tr[j].media.out| <= |tr[i].media.out| + 1
    decreases j
  {
    hide Run, Enabled, Apply, PastXon;
    if i == j {
    } else {
      OverrunAfterXoff(tr, i, j - 1);
      var a := StepBefore(tr, j);
      OverrunStep(tr[j - 1], a);
    }
  }
}
