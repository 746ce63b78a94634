/**
  The object Buffer, MythTV.cpp:510-633: `Fill` and the loop of `Run` in place.  One round of the
  loop is proved to be one tour of the consumer of RecorderMachine, so what RecorderQueue says of
  the machine holds of the loop.
*/
module BufferThread {
  import opened Option
  import opened RecorderMachine
  import opened RecorderQueue
  import opened RecorderDeadlock

  /** What one round of Run sees of the other threads: the flags, each of which it reads once, whether
      the statistics are due, whether the lock is had in time, and the blocks that arrived before the
      round. */
  datatype Seen = Seen(run: bool, streaming: bool, xon: bool, due: bool, locked: bool, arrivals: seq<Block>)

  /** The control fields as the round sees them. */
  function View(s: Seen): Control {
    Control(Free, Free, s.run, false, "", s.streaming, s.xon, true, None, {}, false, 0, false, 0, false, [])
  }

  function RoundRank(pc: ConsumerPc): nat
  {
    match pc
    case CTop | CExit => 0
    case CWait => 12
    case CStats => 11
    case CStreaming => 10
    case CXon => 9
    case CTryLock => 8
    case CPop => 7
    case CUnlock => 6
    case CWrite => 5
    case CEmpty => 4
    case CClearTry => 3
    case CClear => 2
    case CClearUnlock => 1
  }

  predicate Succeeds(s: Seen, pc: ConsumerPc) { if pc.CStats? then s.due else s.locked }

  /** The consumer's steps up to the next test of m_run. */
  function Tour(s: Seen, m: Media, k: Sink): (r: (Media, Sink))
    decreases RoundRank(k.pc)
    ensures r.1.pc.CTop? || r.1.pc.CExit?
  {
    if k.pc.CTop? || k.pc.CExit? then (m, k)
    else Tour(s, SinkMedia(m, k), SinkNext(View(s), m, k, Succeeds(s, k.pc)))
  }

  /** A whole round, from the test of m_run on. */
  function Round(s: Seen, m: Media, k: Sink): (Media, Sink)
    requires k.pc.CTop?
  {
    Tour(s, m, SinkNext(View(s), m, k, true))
  }

  function PushAll(m: Media, bs: seq<Block>): Media
    decreases |bs|
  {
    if bs == [] then m else PushAll(if bs[0] == [] then m else PushBlock(m, bs[0]), bs[1..])
  }

  /** Some rounds, each after the arrivals it sees. */
  function Rounds(seen: seq<Seen>, m: Media, k: Sink): (Media, Sink)
    requires k.pc.CTop?
    decreases |seen|
  {
    if seen == [] then (m, k)
    else
      var r := Round(seen[0], PushAll(m, seen[0].arrivals), k);
      if r.1.pc.CExit? then r else Rounds(seen[1..], r.0, r.1)
  }

  lemma {:induction false} TourStep(s: Seen, m: Media, k: Sink)
    requires !k.pc.CTop? && !k.pc.CExit?
    ensures Tour(s, m, k) == Tour(s, SinkMedia(m, k), SinkNext(View(s), m, k, Succeeds(s, k.pc)))
  {
  }

  lemma {:induction false} TourEnd(s: Seen, m: Media, k: Sink)
    requires k.pc.CTop? || k.pc.CExit?
    ensures Tour(s, m, k) == (m, k)
  {
  }

  /** Lines 564-578: the statistics. */
  function Stats(s: Seen, k: Sink): Sink { if s.due then Flush(k) else k }

  /** Lines 557-582: the wait, the statistics and the tests of the flags. */
  lemma {:induction false} TourStart(s: Seen, m: Media, k: Sink)
    requires k.pc.CTop? && s.run
    ensures var q := Stats(s, k).(wait := false);
      Round(s, m, k) == Tour(s, m, q.(pc := if s.streaming then CXon else CClearTry))
  {
    hide Tour;
    var k1 := SinkNext(View(s), m, k, true);
    TourStep(s, m, k1);
    if k.wait {
      TourStep(s, m, k1.(pc := CStats, wait := false));
    }
    TourStep(s, m, Stats(s, k).(wait := false, pc := CStreaming));
  }

  /** Lines 586-608 when the queue is locked and not empty. */
  lemma {:induction false} TourPop(s: Seen, m: Media, k: Sink)
    requires k.pc.CTryLock? && k.pkt == [] && s.locked && m.queue != []
    ensures var m' := m.(queue := m.queue[1..], left := m.left + [Popped]);
      Tour(s, m, k) == Tour(s, m', k.(pc := CWrite, pkt := m.queue[0], isEmpty := |m.queue| == 1))
  {
    hide Tour;
    TourStep(s, m, k);
    TourStep(s, m, k.(pc := CPop));
    TourStep(s, SinkMedia(m, k.(pc := CPop)), k.(pc := CUnlock, pkt := m.queue[0], isEmpty := |m.queue| == 1));
  }

  /** Otherwise nothing is popped. */
  lemma {:induction false} TourNoPop(s: Seen, m: Media, k: Sink)
    requires k.pc.CTryLock? && k.pkt == [] && !(s.locked && m.queue != [])
    ensures Tour(s, m, k) == Tour(s, m, k.(pc := CWrite))
  {
    hide Tour;
    TourStep(s, m, k);
    if s.locked {
      TourStep(s, m, k.(pc := CPop));
      TourStep(s, m, k.(pc := CUnlock));
    }
  }

  /** Lines 604-608. */
  lemma {:induction false} TourEmpty(s: Seen, m: Media, k: Sink)
    requires k.pc.CEmpty?
    ensures Tour(s, m, k)
      == (m, if k.isEmpty then k.(pc := CTop, wait := true, emptyCnt := Add64(k.emptyCnt, 1)) else k.(pc := CTop))
  {
    hide Tour, Add64;
    TourStep(s, m, k);
    TourEnd(s, m, SinkNext(View(s), m, k, Succeeds(s, k.pc)));
  }

  /** Lines 597-608: the write and the test for an empty queue. */
  lemma {:induction false} TourWrite(s: Seen, m: Media, k: Sink)
    requires k.pc.CWrite?
    ensures Tour(s, m, k) == Tour(s, SinkMedia(m, k), SinkNext(View(s), m, k, true))
    ensures SinkNext(View(s), m, k, true).pc.CEmpty?
  {
    hide Tour;
    TourStep(s, m, k);
  }

  /** Lines 613-627: the queue is cleared if the lock is had. */
  lemma {:induction false} TourClear(s: Seen, m: Media, k: Sink)
    requires k.pc.CClearTry?
    ensures Tour(s, m, k) == (
      if s.locked then m.(queue := [], left := m.left + seq(|m.queue|, _ => Swapped)) else m,
      k.(pc := CTop, wait := true))
  {
    hide Tour;
    TourStep(s, m, k);
    if s.locked {
      var m' := SinkMedia(m, k.(pc := CClear));
      TourStep(s, m, k.(pc := CClear));
      TourStep(s, m', k.(pc := CClearUnlock));
      TourEnd(s, m', k.(pc := CTop, wait := true));
    } else {
      TourEnd(s, m, k.(pc := CTop, wait := true));
    }
  }

  /** Where the machine's program of Fill leaves the queue; `ok` is whether the lock is had in time. */
  function FillSettles(m: Media, w: Work, ok: bool): Media
    decreases WorkRank(w)
  {
    if !w.Filling? then m
    else FillSettles(if w.l.LPush? then PushBlock(m, w.blk) else m, FillNext(w.blk, w.l, ok), ok)
  }

  lemma {:induction false} FillIsPush(m: Media, blk: Block, ok: bool)
    ensures FillSettles(m, OpWork(OpFill(blk)), ok) == if |blk| < 1 || !ok then m else PushBlock(m, blk)
  {
    if |blk| >= 1 && ok {
      assert FillSettles(m, Filling(blk, LTry), ok) == FillSettles(m, Filling(blk, LPush), ok)
        == FillSettles(PushBlock(m, blk), Filling(blk, LUnlock), ok) == PushBlock(m, blk);
    }
  }

  class Buffer {
    var data: seq<Block>  // m_data
    var dropped: nat      // the static counter of Fill
    var out: seq<Block>   // the blocks handed to write(1, ...)
    ghost var media: Media

    ghost predicate Valid()
      reads this
    {
      data == media.queue && dropped == media.dropped && out == media.out
    }

    constructor ()
      ensures Valid() && media == Media([], 0, [], [], [], [], [])
    {
      data, dropped, out := [], 0, [];
      media := Media([], 0, [], [], [], [], []);
    }

    /** Buffer::Fill when the lock is had in time; otherwise it does nothing. */
    method Fill(blk: Block, locked: bool)
      requires Valid()
      modifies this`data, this`dropped, this`media
      ensures Valid()
      ensures media == FillSettles(old(media), OpWork(OpFill(blk)), locked)
      ensures media == if |blk| < 1 || !locked then old(media) else PushBlock(old(media), blk)
      ensures |blk| < 1 || !locked ==> data == old(data) && dropped == old(dropped)
      ensures |blk| >= 1 && locked ==>
        if |old(data)| < 500 then data == old(data) + [blk] && dropped == 0
        else data == old(data) && dropped == old(dropped) + 1
    {
      FillIsPush(media, blk, locked);
      if |blk| < 1 || !locked {
        return;
      }
      if |data| < MAX_QUEUE {
        data := data + [blk];
        dropped := 0;
      } else {
        dropped := dropped + 1;
      }
      media := PushBlock(media, blk);
    }

    method FillAll(blks: seq<Block>)
      requires Valid()
      modifies this`data, this`dropped, this`media
      ensures Valid() && media == PushAll(old(media), blks)
    {
      var n := 0;
      while n < |blks|
        invariant 0 <= n <= |blks| && Valid()
        invariant PushAll(media, blks[n..]) == PushAll(old(media), blks)
      {
        hide PushBlock;
        assert blks[n..][0] == blks[n];
        Fill(blks[n], true);
        assert blks[n..][1..] == blks[n + 1..];
        n := n + 1;
      }
    }

    /** The branch for streaming with XON, MythTV.cpp:584-608; `k` holds the local variables. */
    method Drain(s: Seen, k: Sink) returns (k': Sink)
      requires Valid() && k.pc.CTryLock? && k.pkt == []
      modifies this`data, this`out, this`media
      ensures Valid() && (media, k') == Tour(s, old(media), k) && k'.pc.CTop?
    {
      hide Tour, Add64;
      k' := k.(pc := CWrite);
      if s.locked && data != [] {
        TourPop(s, media, k);
        k' := k'.(pkt := data[0], isEmpty := |data| == 1);
        data := data[1..];
        media := media.(queue := media.queue[1..], left := media.left + [Popped]);
      } else {
        TourNoPop(s, media, k);
      }
      TourWrite(s, media, k');
      ghost var q := SinkNext(View(s), media, k', true);
      media := SinkMedia(media, k');
      if k'.pkt != [] {
        out := out + [k'.pkt];
        k' := k'.(written := Add64(k'.written, |k'.pkt|), writeCnt := Add64(k'.writeCnt, 1));
      }
      k' := k'.(pc := CEmpty);
      assert k' == q;
      TourEmpty(s, media, k');
      if k'.isEmpty {
        k' := k'.(wait := true, emptyCnt := Add64(k'.emptyCnt, 1));
      }
      k' := k'.(pc := CTop);
    }

    /** The branch for not streaming, MythTV.cpp:613-627. */
    method Clear(s: Seen, k: Sink) returns (k': Sink)
      requires Valid() && k.pc.CClearTry?
      modifies this`data, this`media
      ensures Valid() && (media, k') == Tour(s, old(media), k) && k'.pc.CTop?
    {
      hide Tour;
      TourClear(s, media, k);
      if s.locked {
        if data != [] {
          data := [];
        }
        media := media.(queue := [], left := media.left + seq(|media.queue|, _ => Swapped));
      }
      k' := k.(pc := CTop, wait := true);
    }

    /** One round of the loop, MythTV.cpp:555-629. */
    method OneRound(s: Seen, k: Sink) returns (k': Sink)
      requires Valid() && k.pc.CTop? && s.run
      modifies this`data, this`out, this`media
      ensures Valid() && (media, k') == Round(s, old(media), k) && k'.pc.CTop?
    {
      hide Tour, Add64, Round;
      TourStart(s, media, k);
      k' := k.(wait := false);
      if s.due {
        k' := k'.(writeTotal := Add64(k'.writeTotal, k'.written), written := 0, writeCnt := 0, emptyCnt := 0);
      }
      if s.streaming {
        XonStep(s, media, k'.(pc := CXon));
        if s.xon {
          k' := Drain(s, k'.(pc := CTryLock, pkt := []));
        } else {
          k' := k'.(pc := CTop, wait := true);
        }
      } else {
        k' := Clear(s, k'.(pc := CClearTry));
      }
    }

    /** Buffer::Run, for as many rounds as are seen; it ends early when m_run is false. */
    method Run(seen: seq<Seen>, k: Sink) returns (k': Sink)
      requires Valid() && k.pc.CTop?
      modifies this
      ensures Valid() && (media, k') == Rounds(seen, old(media), k)
    {
      k' := k;
      var n := 0;
      while n < |seen|
        invariant 0 <= n <= |seen| && Valid() && k'.pc.CTop?
        invariant Rounds(seen[n..], media, k') == Rounds(seen, old(media), k)
      {
        hide Round, PushAll;
        assert seen[n..][1..] == seen[n + 1..];
        FillAll(seen[n].arrivals);
        if !seen[n].run {
          LastRound(seen[n], media, k');
          k' := k'.(pc := CExit);
          return;
        }
        k' := OneRound(seen[n], k');
        n := n + 1;
      }
    }
  }

  lemma {:induction false} XonStep(s: Seen, m: Media, k: Sink)
    requires k.pc.CXon?
    ensures Tour(s, m, k)
      == if s.xon then Tour(s, m, k.(pc := CTryLock, pkt := [])) else (m, k.(pc := CTop, wait := true))
  {
    hide Tour;
    TourStep(s, m, k);
    if !s.xon {
      TourEnd(s, m, k.(pc := CTop, wait := true));
    }
  }

  lemma {:induction false} LastRound(s: Seen, m: Media, k: Sink)
    requires k.pc.CTop? && !s.run
    ensures Round(s, m, k) == (m, k.(pc := CExit))
  {
    hide Tour;
    TourEnd(s, m, k.(pc := CExit));
  }

  // ---------------------------------------------------------------- what a round does

  /** With the flow on and the lock had, a round writes the first queued block. */
  lemma {:induction false} RoundWrites(s: Seen, m: Media, k: Sink)
    requires k.pc.CTop? && s.run && s.streaming && s.xon && s.locked && m.queue != [] && m.queue[0] != []
    ensures var r := Round(s, m, k); var q := Stats(s, k); var n := |m.queue[0]|;
      && r.0 == m.(queue := m.queue[1..], left := m.left + [Popped],
                   out := m.out + [m.queue[0]], outIds := m.outIds + [|m.left|])
      && r.1.pc.CTop? && r.1.isEmpty == (|m.queue| == 1) && r.1.wait == (|m.queue| == 1)
      && r.1.written == (q.written + n) % 0x1_0000_0000_0000_0000
      && r.1.writeCnt == (q.writeCnt + 1) % 0x1_0000_0000_0000_0000
      && r.1.writeTotal == q.writeTotal
      && r.1.emptyCnt == (if |m.queue| == 1 then (q.emptyCnt + 1) % 0x1_0000_0000_0000_0000 else q.emptyCnt)
  {
    hide Tour, Round, Add64;
    CountersWrap();
    var q := Stats(s, k).(wait := false);
    var q1 := q.(pc := CTryLock, pkt := []);
    TourStart(s, m, k);
    XonStep(s, m, q.(pc := CXon));
    TourPop(s, m, q1);
    var m2 := m.(queue := m.queue[1..], left := m.left + [Popped]);
    var q2 := q1.(pc := CWrite, pkt := m.queue[0], isEmpty := |m.queue| == 1);
    TourWrite(s, m2, q2);
    TourEmpty(s, SinkMedia(m2, q2), SinkNext(View(s), m2, q2, true));
  }

  lemma {:induction false} CountersWrap()
    ensures forall a: nat, b: nat :: Add64(a, b) == (a + b) % 0x1_0000_0000_0000_0000
  {
  }

  /** With the flow on, but nothing to pop or no lock, the queue and the output stay as they are. */
  lemma {:induction false} RoundFindsNothing(s: Seen, m: Media, k: Sink)
    requires k.pc.CTop? && s.run && s.streaming && s.xon && !(s.locked && m.queue != [])
    ensures var r := Round(s, m, k); var q := Stats(s, k);
      && r.0 == m && r.1.pc.CTop? && r.1.wait == k.isEmpty && r.1.isEmpty == k.isEmpty
      && r.1.written == q.written && r.1.writeCnt == q.writeCnt && r.1.writeTotal == q.writeTotal
      && r.1.emptyCnt == (if k.isEmpty then (q.emptyCnt + 1) % 0x1_0000_0000_0000_0000 else q.emptyCnt)
  {
    hide Tour, Round, Add64;
    CountersWrap();
    var q := Stats(s, k).(wait := false);
    var q1 := q.(pc := CTryLock, pkt := []);
    TourStart(s, m, k);
    XonStep(s, m, q.(pc := CXon));
    TourNoPop(s, m, q1);
    TourWrite(s, m, q1.(pc := CWrite));
    TourEmpty(s, m, q1.(pc := CEmpty));
  }

  /** With the flow off nothing is written and nothing leaves the queue; when not streaming the queue is
      emptied if the lock is had. */
  lemma {:induction false} RoundHolds(s: Seen, m: Media, k: Sink)
    requires k.pc.CTop? && s.run && (!s.streaming || !s.xon)
    ensures var r := Round(s, m, k);
      && r.0.out == m.out && r.0.accepted == m.accepted && r.1.pc.CTop? && r.1.wait
      && r.1.written == Stats(s, k).written
      && r.0.queue == if s.streaming || !s.locked then m.queue else []
  {
    hide Tour, Round, Add64;
    var q := Stats(s, k).(wait := false);
    TourStart(s, m, k);
    if s.streaming {
      XonStep(s, m, q.(pc := CXon));
    } else {
      TourClear(s, m, q.(pc := CClearTry));
    }
  }

  /** The statistics move what was written to the total, and only when they are due. */
  lemma {:induction false} StatsMove(s: Seen, k: Sink)
    ensures !s.due ==> Stats(s, k) == k
    ensures s.due ==>
      Stats(s, k) == k.(writeTotal := (k.writeTotal + k.written) % 0x1_0000_0000_0000_0000,
                        written := 0, writeCnt := 0, emptyCnt := 0)
  {
  }

  /** While the flow is on and the lock is had, each round writes one block until the queue is empty. */
  lemma {:induction false} RoundsWriteQueue(seen: seq<Seen>, m: Media, k: Sink)
    requires k.pc.CTop? && |seen| <= |m.queue| && [] !in m.queue
    requires forall s | s in seen :: s.run && s.streaming && s.xon && s.locked && s.arrivals == []
    ensures var r := Rounds(seen, m, k);
      && r.0.out == m.out + m.queue[..|seen|] && r.0.queue == m.queue[|seen|..]
      && r.0.accepted == m.accepted && r.1.pc.CTop?
    decreases |seen|
  {
    hide Round, Rounds, Stats;
    if seen == [] {
      NoRounds(m, k);
    } else {
      assert seen[0] in seen && m.queue[0] in m.queue;
      RoundsStep(seen, m, k);
      NoRounds(m, k);
      RoundWrites(seen[0], m, k);
      var r := Round(seen[0], m, k);
      assert [] !in m.queue[1..] by {
        assert forall b | b in m.queue[1..] :: b in m.queue;
      }
      RoundsWriteQueue(seen[1..], r.0, r.1);
      assert m.queue[..|seen|] == [m.queue[0]] + m.queue[1..][..|seen| - 1];
    }
  }

  // ---------------------------------------------------------------- what the loop keeps

  lemma {:induction false} TourKeeps(s: Seen, m: Media, k: Sink)
    requires QueueInv(m, k)
    ensures QueueInv(Tour(s, m, k).0, Tour(s, m, k).1)
    decreases RoundRank(k.pc)
  {
    hide QueueInv, SinkMedia;
    if k.pc.CTop? || k.pc.CExit? {
    } else {
      var ok := Succeeds(s, k.pc);
      SinkKeeps(View(s), m, k, ok);
      TourKeeps(s, SinkMedia(m, k), SinkNext(View(s), m, k, ok));
    }
  }

  lemma {:induction false} SinkKeeps(c: Control, m: Media, k: Sink, ok: bool)
    requires QueueInv(m, k)
    ensures QueueInv(SinkMedia(m, k), SinkNext(c, m, k, ok))
  {
    hide SinkMedia, SinkNext, Suffix, Written, Complete, Counted, Logged;
    SinkKeepsLogged(m, k);
    SinkKeepsSuffix(c, m, k, ok);
    SinkKeepsWritten(c, m, k, ok);
    SinkKeepsComplete(c, m, k, ok);
    SinkKeepsCounted(c, m, k, ok);
  }

  lemma {:induction false} PushAllKeeps(m: Media, k: Sink, bs: seq<Block>)
    requires QueueInv(m, k)
    ensures QueueInv(PushAll(m, bs), k)
    decreases |bs|
  {
    hide QueueInv, PushBlock;
    if bs == [] {
    } else {
      if bs[0] != [] {
        PushKeeps(m, k, bs[0]);
      }
      PushAllKeeps(if bs[0] == [] then m else PushBlock(m, bs[0]), k, bs[1..]);
    }
  }

  // ---------------------------------------------------------------- blocks that arrive during a round

  function AllOf(arrivals: seq<seq<Block>>): seq<Block> {
    if arrivals == [] then [] else arrivals[0] + AllOf(arrivals[1..])
  }

  /** A tour with arrivals before each of its steps; what is left of them arrives at its end. */
  function BusyTour(s: Seen, m: Media, k: Sink, arrivals: seq<seq<Block>>): (Media, Sink)
    decreases RoundRank(k.pc)
  {
    if k.pc.CTop? || k.pc.CExit? then (PushAll(m, AllOf(arrivals)), k)
    else
      var m1 := if arrivals == [] then m else PushAll(m, arrivals[0]);
      BusyTour(s, SinkMedia(m1, k), SinkNext(View(s), m1, k, Succeeds(s, k.pc)),
               if arrivals == [] then [] else arrivals[1..])
  }

  function BusyRound(s: Seen, m: Media, k: Sink, arrivals: seq<seq<Block>>): (Media, Sink)
    requires k.pc.CTop?
  {
    BusyTour(s, m, SinkNext(View(s), m, k, true), arrivals)
  }

  lemma {:induction false} PushAllAppend(m: Media, a: seq<Block>, b: seq<Block>)
    ensures PushAll(m, a + b) == PushAll(PushAll(m, a), b)
    decreases |a|
  {
    hide PushBlock;
    if a == [] {
      assert a + b == b;
    } else {
      assert (a + b)[1..] == a[1..] + b;
      PushAllAppend(if a[0] == [] then m else PushBlock(m, a[0]), a[1..], b);
    }
  }

  /** A block that arrives before a step of the consumer could as well arrive after it, except for the
      two accesses to the queue. */
  lemma {:induction false} ArrivalMoves(c: Control, m: Media, k: Sink, ok: bool, b: Block)
    requires !k.pc.CPop? && !k.pc.CClear?
    ensures SinkMedia(PushBlock(m, b), k) == PushBlock(SinkMedia(m, k), b)
    ensures SinkNext(c, PushBlock(m, b), k, ok) == SinkNext(c, m, k, ok)
  {
  }

  lemma {:induction false} ArrivalsMove(c: Control, m: Media, k: Sink, ok: bool, bs: seq<Block>)
    requires !k.pc.CPop? && !k.pc.CClear?
    ensures SinkMedia(PushAll(m, bs), k) == PushAll(SinkMedia(m, k), bs)
    ensures SinkNext(c, PushAll(m, bs), k, ok) == SinkNext(c, m, k, ok)
    decreases |bs|
  {
    hide PushBlock, SinkMedia, SinkNext;
    if bs == [] {
    } else if bs[0] == [] {
      ArrivalsMove(c, m, k, ok, bs[1..]);
    } else {
      ArrivalMoves(c, m, k, ok, bs[0]);
      ArrivalsMove(c, PushBlock(m, bs[0]), k, ok, bs[1..]);
    }
  }

  /** The consumer may still access the queue in this round. */
  predicate AccessAhead(pc: ConsumerPc) {
    pc.CWait? || pc.CStats? || pc.CStreaming? || pc.CXon? || pc.CTryLock? || pc.CPop? || pc.CClearTry? || pc.CClear?
  }

  lemma {:induction false} OneAccess(c: Control, m: Media, k: Sink, ok: bool)
    ensures k.pc.CPop? || k.pc.CClear? ==> !AccessAhead(SinkNext(c, m, k, ok).pc)
    ensures !AccessAhead(k.pc) && !k.pc.CTop? ==> !AccessAhead(SinkNext(c, m, k, ok).pc)
  {
  }

  /** After the access of a round the arrivals have no part in it. */
  lemma {:induction false} TourMoves(s: Seen, m: Media, k: Sink, bs: seq<Block>)
    requires !AccessAhead(k.pc)
    ensures Tour(s, PushAll(m, bs), k) == (PushAll(Tour(s, m, k).0, bs), Tour(s, m, k).1)
    decreases RoundRank(k.pc)
  {
    hide Tour, PushAll, SinkMedia, SinkNext;
    if k.pc.CTop? || k.pc.CExit? {
      TourEnd(s, m, k);
      TourEnd(s, PushAll(m, bs), k);
    } else {
      var ok := Succeeds(s, k.pc);
      TourStep(s, m, k);
      TourStep(s, PushAll(m, bs), k);
      ArrivalsMove(View(s), m, k, ok, bs);
      OneAccess(View(s), m, k, ok);
      StepsDown(View(s), m, k, ok);
      TourMoves(s, SinkMedia(m, k), SinkNext(View(s), m, k, ok), bs);
    }
  }

  lemma {:induction false} StepsDown(c: Control, m: Media, k: Sink, ok: bool)
    requires !k.pc.CTop? && !k.pc.CExit?
    ensures RoundRank(SinkNext(c, m, k, ok).pc) < RoundRank(k.pc)
  {
  }

  /** A tour with arrivals before each of its steps is a tour with all of them, in order, some before
      it and the rest after it. */
  lemma {:induction false} BusyTourIsTour(s: Seen, m: Media, k: Sink, arrivals: seq<seq<Block>>)
    returns (before: seq<Block>, after: seq<Block>)
    ensures before + after == AllOf(arrivals)
    ensures BusyTour(s, m, k, arrivals)
      == (PushAll(Tour(s, PushAll(m, before), k).0, after), Tour(s, PushAll(m, before), k).1)
    decreases RoundRank(k.pc)
  {
    hide Tour, SinkMedia, SinkNext, PushBlock;
    if k.pc.CTop? || k.pc.CExit? {
      before, after := [], AllOf(arrivals);
      TourEnd(s, m, k);
    } else {
      var ok := Succeeds(s, k.pc);
      var (first, rest) := if arrivals == [] then ([], []) else (arrivals[0], arrivals[1..]);
      var m1 := PushAll(m, first);
      var (m2, k2) := (SinkMedia(m1, k), SinkNext(View(s), m1, k, ok));
      StepsDown(View(s), m1, k, ok);
      var b, a := BusyTourIsTour(s, m2, k2, rest);
      before, after := ArrivalsSplit(s, m, k, first, b, a);
    }
  }

  /** Arrivals before a step, and before and after the rest of the tour. */
  lemma {:induction false} ArrivalsSplit(s: Seen, m: Media, k: Sink, first: seq<Block>, b: seq<Block>, a: seq<Block>)
    returns (before: seq<Block>, after: seq<Block>)
    requires !k.pc.CTop? && !k.pc.CExit?
    ensures before + after == first + (b + a)
    ensures var m1 := PushAll(m, first);
      var (m2, k2) := (SinkMedia(m1, k), SinkNext(View(s), m1, k, Succeeds(s, k.pc)));
      var (t, u) := (Tour(s, PushAll(m, before), k), Tour(s, PushAll(m2, b), k2));
      (PushAll(t.0, after), t.1) == (PushAll(u.0, a), u.1)
  {
    hide Tour, SinkMedia, SinkNext, PushAll;
    var ok := Succeeds(s, k.pc);
    var m1 := PushAll(m, first);
    var (m2, k2) := (SinkMedia(m1, k), SinkNext(View(s), m1, k, ok));
    if k.pc.CPop? || k.pc.CClear? {
      before, after := first, b + a;
      TourStep(s, m1, k);
      OneAccess(View(s), m1, k, ok);
      TourMoves(s, m2, k2, b);
      PushAllAppend(Tour(s, m2, k2).0, b, a);
    } else {
      before, after := first + b, a;
      PushAllAppend(m, first, b);
      TourStep(s, PushAll(m1, b), k);
      ArrivalsMove(View(s), m1, k, ok, b);
    }
  }

  /** The same for a whole round. */
  lemma {:induction false} BusyRoundIsRound(s: Seen, m: Media, k: Sink, arrivals: seq<seq<Block>>)
    returns (before: seq<Block>, after: seq<Block>)
    requires k.pc.CTop?
    ensures before + after == AllOf(arrivals)
    ensures var r := Round(s, PushAll(m, before), k); BusyRound(s, m, k, arrivals) == (PushAll(r.0, after), r.1)
  {
    hide Tour, BusyTour, SinkMedia, SinkNext;
    before, after := BusyTourIsTour(s, m, SinkNext(View(s), m, k, true), arrivals);
    ArrivalsMove(View(s), m, k, true, before);
  }

  function AllArrivals(arrs: seq<seq<seq<Block>>>): seq<Block> {
    if arrs == [] then [] else AllOf(arrs[0]) + AllArrivals(arrs[1..])
  }

  /** Rounds with arrivals before each of their steps; if the loop ends early, the other blocks
      arrive then. */
  function BusyRounds(seen: seq<Seen>, arrs: seq<seq<seq<Block>>>, m: Media, k: Sink): (Media, Sink)
    requires |arrs| == |seen| && k.pc.CTop?
    decreases |seen|
  {
    if seen == [] then (m, k)
    else
      var r := BusyRound(seen[0], m, k, arrs[0]);
      if r.1.pc.CExit? then (PushAll(r.0, AllArrivals(arrs[1..])), r.1)
      else
        BusyEndsAtTop(seen[0], m, k, arrs[0]);
        BusyRounds(seen[1..], arrs[1..], r.0, r.1)
  }

  lemma {:induction false} BusyEndsAtTop(s: Seen, m: Media, k: Sink, arrivals: seq<seq<Block>>)
    requires k.pc.CTop?
    ensures var r := BusyRound(s, m, k, arrivals); r.1.pc.CTop? || r.1.pc.CExit?
  {
    var before, after := BusyRoundIsRound(s, m, k, arrivals);
  }

  /** The same rounds, up to the blocks that arrive before them. */
  predicate SameFlags(seen: seq<Seen>, quiet: seq<Seen>) {
    |quiet| == |seen| && forall i | 0 <= i < |seen| :: quiet[i] == seen[i].(arrivals := quiet[i].arrivals)
  }

  function Brought(seen: seq<Seen>): seq<Block> {
    if seen == [] then [] else seen[0].arrivals + Brought(seen[1..])
  }

  lemma {:induction false} FlagsOnly(s: Seen, m: Media, k: Sink, bs: seq<Block>)
    ensures Tour(s.(arrivals := bs), m, k) == Tour(s, m, k)
    decreases RoundRank(k.pc)
  {
    hide Tour, SinkMedia, SinkNext;
    var q := s.(arrivals := bs);
    if k.pc.CTop? || k.pc.CExit? {
      TourEnd(s, m, k);
      TourEnd(q, m, k);
    } else {
      TourStep(s, m, k);
      TourStep(q, m, k);
      StepsDown(View(s), m, k, Succeeds(s, k.pc));
      FlagsOnly(s, SinkMedia(m, k), SinkNext(View(s), m, k, Succeeds(s, k.pc)), bs);
    }
  }

  /** Blocks that are there before the rounds could as well arrive before the first of them. */
  lemma {:induction false} BringEarlier(seen: seq<Seen>, m: Media, k: Sink, bs: seq<Block>)
    requires seen != [] && k.pc.CTop?
    ensures var first := seen[0].(arrivals := bs + seen[0].arrivals);
      Rounds([first] + seen[1..], m, k) == Rounds(seen, PushAll(m, bs), k)
  {
    hide Tour, PushAll, SinkMedia, SinkNext;
    var s := seen[0];
    var first := s.(arrivals := bs + s.arrivals);
    PushAllAppend(m, bs, s.arrivals);
    var m1 := PushAll(m, bs + s.arrivals);
    FlagsOnly(s, m1, SinkNext(View(s), m1, k, true), bs + s.arrivals);
    assert ([first] + seen[1..])[1..] == seen[1..];
  }

  /** However the blocks arrive during the rounds, the loop does what it does when they arrive between
      them: the same blocks, in the same order. */
  lemma {:induction false} LoopSeesArrivalsBetween(seen: seq<Seen>, arrs: seq<seq<seq<Block>>>, m: Media, k: Sink)
    returns (quiet: seq<Seen>, after: seq<Block>)
    requires |arrs| == |seen| && k.pc.CTop?
    ensures SameFlags(seen, quiet) && Brought(quiet) + after == AllArrivals(arrs)
    ensures var r := Rounds(quiet, m, k); BusyRounds(seen, arrs, m, k) == (PushAll(r.0, after), r.1)
    decreases |seen|
  {
    hide Tour, BusyRound, Round, PushAll, Rounds, BusyRounds;
    if seen == [] {
      quiet, after := [], [];
      NoRounds(m, k);
    } else {
      var before, late := BusyRoundIsRound(seen[0], m, k, arrs[0]);
      var first := seen[0].(arrivals := before);
      RoundFlagsOnly(seen[0], PushAll(m, before), k, before);
      BusyStep(seen, arrs, m, k);
      var r := Round(first, PushAll(m, before), k);
      if r.1.pc.CExit? {
        quiet, after := [first] + Silent(seen[1..]), late + AllArrivals(arrs[1..]);
        PushAllAppend(r.0, late, AllArrivals(arrs[1..]));
        SilentBringsNone(seen[1..]);
      } else {
        var rest, end := LoopSeesArrivalsBetween(seen[1..], arrs[1..], PushAll(r.0, late), r.1);
        quiet, after := JoinRounds(first, rest, late, end, r.0, r.1);
      }
      RoundsStep(quiet, m, k);
    }
  }

  lemma {:induction false} NoRounds(m: Media, k: Sink)
    requires k.pc.CTop?
    ensures PushAll(m, []) == m && Rounds([], m, k) == (m, k) && BusyRounds([], [], m, k) == (m, k)
  {
  }

  lemma {:induction false} RoundsStep(seen: seq<Seen>, m: Media, k: Sink)
    requires seen != [] && k.pc.CTop?
    ensures var r := Round(seen[0], PushAll(m, seen[0].arrivals), k);
      if r.1.pc.CExit? then Rounds(seen, m, k) == r
      else r.1.pc.CTop? && Rounds(seen, m, k) == Rounds(seen[1..], r.0, r.1)
  {
  }

  lemma {:induction false} BusyStep(seen: seq<Seen>, arrs: seq<seq<seq<Block>>>, m: Media, k: Sink)
    requires |arrs| == |seen| && seen != [] && k.pc.CTop?
    ensures var r := BusyRound(seen[0], m, k, arrs[0]);
      if r.1.pc.CExit? then BusyRounds(seen, arrs, m, k) == (PushAll(r.0, AllArrivals(arrs[1..])), r.1)
      else r.1.pc.CTop? && BusyRounds(seen, arrs, m, k) == BusyRounds(seen[1..], arrs[1..], r.0, r.1)
  {
    hide BusyRound, PushAll;
    BusyEndsAtTop(seen[0], m, k, arrs[0]);
  }

  lemma {:induction false} RoundFlagsOnly(s: Seen, m: Media, k: Sink, bs: seq<Block>)
    requires k.pc.CTop?
    ensures Round(s.(arrivals := bs), m, k) == Round(s, m, k)
  {
    hide Tour;
    FlagsOnly(s, m, SinkNext(View(s), m, k, true), bs);
  }

  function Silent(seen: seq<Seen>): seq<Seen> {
    if seen == [] then [] else [seen[0].(arrivals := [])] + Silent(seen[1..])
  }

  lemma {:induction false} SilentBringsNone(seen: seq<Seen>)
    ensures SameFlags(seen, Silent(seen)) && Brought(Silent(seen)) == []
  {
    if seen == [] {
    } else {
      SilentBringsNone(seen[1..]);
      assert Silent(seen)[1..] == Silent(seen[1..]);
    }
  }

  /** The blocks left over from a round go to the next round, or to the end. */
  lemma {:induction false} JoinRounds(
      first: Seen, rest: seq<Seen>, late: seq<Block>, end: seq<Block>, m: Media, k: Sink)
    returns (quiet: seq<Seen>, after: seq<Block>)
    requires k.pc.CTop?
    ensures |quiet| == |rest| + 1 && quiet[0] == first && SameFlags(rest, quiet[1..])
    ensures Brought(quiet) + after == first.arrivals + (late + (Brought(rest) + end))
    ensures var (r, q) := (Rounds(rest, PushAll(m, late), k), Rounds(quiet[1..], m, k));
      (PushAll(q.0, after), q.1) == (PushAll(r.0, end), r.1)
  {
    hide Round, PushAll;
    if rest == [] {
      quiet, after := [first], late + end;
      PushAllAppend(m, late, end);
      assert quiet[1..] == [];
    } else {
      var next := rest[0].(arrivals := late + rest[0].arrivals);
      quiet, after := [first] + ([next] + rest[1..]), end;
      BringEarlier(rest, m, k, late);
      assert quiet[1..] == [next] + rest[1..];
      assert ([next] + rest[1..])[1..] == rest[1..];
    }
  }

  /** The loop in place keeps what the machine keeps: order, bound and exact counters, whatever flags
      its rounds see and whatever blocks arrive between them. */
  lemma {:induction false} RoundsKeep(seen: seq<Seen>, m: Media, k: Sink)
    requires QueueInv(m, k) && k.pc.CTop?
    ensures QueueInv(Rounds(seen, m, k).0, Rounds(seen, m, k).1)
    decreases |seen|
  {
    hide QueueInv, Tour, PushAll;
    if seen == [] {
    } else {
      var m1 := PushAll(m, seen[0].arrivals);
      PushAllKeeps(m, k, seen[0].arrivals);
      TopKeeps(seen[0], m1, k);
      TourKeeps(seen[0], m1, SinkNext(View(seen[0]), m1, k, true));
      var r := Round(seen[0], m1, k);
      if r.1.pc.CTop? {
        RoundsKeep(seen[1..], r.0, r.1);
      }
    }
  }

  /** The same when blocks arrive before every step of the rounds. */
  lemma {:induction false} BusyRoundsKeep(seen: seq<Seen>, arrs: seq<seq<seq<Block>>>, m: Media, k: Sink)
    requires |arrs| == |seen| && QueueInv(m, k) && k.pc.CTop?
    ensures QueueInv(BusyRounds(seen, arrs, m, k).0, BusyRounds(seen, arrs, m, k).1)
  {
    hide QueueInv, Rounds, BusyRounds, PushAll;
    var quiet, after := LoopSeesArrivalsBetween(seen, arrs, m, k);
    RoundsKeep(quiet, m, k);
    var r := Rounds(quiet, m, k);
    PushAllKeeps(r.0, r.1, after);
  }

  lemma {:induction false} TopKeeps(s: Seen, m: Media, k: Sink)
    requires QueueInv(m, k) && k.pc.CTop?
    ensures QueueInv(m, SinkNext(View(s), m, k, true))
  {
  }
}
