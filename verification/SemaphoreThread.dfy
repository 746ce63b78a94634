/**
  The counter of the semaphore in place, baseif.cpp:62-70 and 88-128.  `Take` and `Give` are the
  critical sections; a thread makes in them the steps that it makes in the machine of Semaphore.
*/
module SemaphoreThread {
  import opened Option
  import opened Semaphore

  /** What a wait returns, and the counter that the thread finds when it owns the mutex again. */
  datatype Wait = Wait(r: Ret, cnt: nat)

  /** Only a timed wait times out, and a wait that fails leaves the mutex and the counter alone. */
  predicate Possible(ms: int, w: Wait) {
    w.cnt < TWO_TO_32 && (w.r.TimedOut? ==> ms >= 0) && (w.r.Failed? ==> w.cnt == 0)
  }

  function TakeRank(k: TakePc): nat
  {
    match k
    case KLock => 8
    case KTest => 7
    case KReturned(_) => 6
    case KWhile => 5
    case KWait => 4
    case KAsleep => 3
    case KAwake(_, _) => 2
    case KDecide(_) => 1
    case KUnlock(_) => 0
  }

  /** The machine's steps of a take that owns the mutex, up to the unlock or to a wait that does not
      end: the counter and the program counter. */
  function Await(ms: int, cnt: nat, k: TakePc, waits: seq<Wait>): (nat, TakePc)
    decreases |waits|, TakeRank(k)
  {
    if k.KUnlock? then (cnt, k)
    else if k.KAsleep? || k.KAwake? then
      if waits == [] then (cnt, k) else Await(ms, waits[0].cnt, KReturned(waits[0].r), waits[1..])
    else
      var th := Taking(ms, k);
      var fails := k.KWait? && waits != [] && waits[0].r.Failed?;
      Await(ms, CntAfter(cnt, th), ThreadAfter(cnt, th, fails).k, if fails then waits[1..] else waits)
  }

  function GiveRank(g: GivePc): nat
  {
    match g
    case GLock => 3
    case GIncrement => 2
    case GSignal => 1
    case GUnlock => 0
  }

  /** The machine's steps of a give, from the lock to the unlock: the counter. */
  function Pass(cnt: nat, g: GivePc): nat
    decreases GiveRank(g)
  {
    if g.GUnlock? then cnt else Pass(CntAfter(cnt, Giving(g)), ThreadAfter(cnt, Giving(g), false).g)
  }

  lemma {:induction false} PassCounts(cnt: nat)
    requires cnt < TWO_TO_32
    ensures Pass(cnt, GLock) == if cnt + 1 == TWO_TO_32 then 0 else cnt + 1
  {
    var c := CntAfter(cnt, Giving(GIncrement));
    assert Pass(c, GSignal) == Pass(c, GUnlock) == c;
    assert Pass(cnt, GLock) == Pass(cnt, GIncrement) == Pass(c, GSignal);
  }

  /** A take that follows a give gets a token without waiting and leaves the counter as it was
      before the give, whatever its waits would bring, if and only if the give did not wrap the
      counter; after a give that did, a take sleeps. */
  lemma {:induction false} GiveThenTake(ms: int, cnt: nat, waits: seq<Wait>)
    requires cnt < TWO_TO_32
    ensures cnt + 1 < TWO_TO_32 ==> Await(ms, Pass(cnt, GLock), KTest, waits) == (cnt, KUnlock(Ok))
    ensures Await(ms, Pass(cnt, GLock), KTest, []) == (cnt, KUnlock(Ok)) <==> cnt + 1 < TWO_TO_32
    ensures cnt + 1 == TWO_TO_32 ==> Await(ms, Pass(cnt, GLock), KTest, []) == (0, KAsleep)
  {
    hide Await, Pass;
    PassCounts(cnt);
    if cnt + 1 < TWO_TO_32 {
      TakesAtOnce(ms, cnt + 1, waits);
      TakesAtOnce(ms, cnt + 1, []);
    } else {
      AwaitStep(ms, 0, KTest, []);
      AwaitStep(ms, 0, KWhile, []);
      AwaitAsleep(ms, []);
    }
  }

  lemma {:induction false} AwaitStep(ms: int, cnt: nat, k: TakePc, waits: seq<Wait>)
    requires k.KTest? || k.KWhile? || k.KReturned? || k.KDecide?
    ensures Await(ms, cnt, k, waits)
      == Await(ms, CntAfter(cnt, Taking(ms, k)), ThreadAfter(cnt, Taking(ms, k), false).k, waits)
  {
  }

  /** A round of the wait loop. */
  lemma {:induction false} AwaitRound(ms: int, waits: seq<Wait>)
    requires forall w | w in waits :: Possible(ms, w)
    ensures Await(ms, 0, KReturned(Zero), waits)
      == if waits == [] then (0, KAsleep) else Await(ms, waits[0].cnt, KReturned(waits[0].r), waits[1..])
  {
    AwaitStep(ms, 0, KReturned(Zero), waits);
    AwaitStep(ms, 0, KWhile, waits);
    AwaitAsleep(ms, waits);
  }

  lemma {:induction false} AwaitAsleep(ms: int, waits: seq<Wait>)
    requires forall w | w in waits :: Possible(ms, w)
    ensures Await(ms, 0, KWait, waits)
      == if waits == [] then (0, KAsleep) else Await(ms, waits[0].cnt, KReturned(waits[0].r), waits[1..])
  {
    if waits == [] || !waits[0].r.Failed? {
      assert Await(ms, 0, KWait, waits) == Await(ms, 0, KAsleep, waits);
    } else {
      assert Possible(ms, waits[0]);
    }
  }

  /** The second test of the counter, after the loop. */
  lemma {:induction false} AwaitEnd(ms: int, cnt: nat, r: Ret, waits: seq<Wait>)
    requires cnt > 0 || !r.Zero?
    ensures Await(ms, cnt, KReturned(r), waits)
      == (if cnt > 0 then cnt - 1 else 0, KUnlock(if cnt > 0 then Ok else if r.TimedOut? then Timeout else Error))
  {
    AwaitStep(ms, cnt, KReturned(r), waits);
    if r.Zero? {
      AwaitStep(ms, cnt, KWhile, waits);
    }
    AwaitStep(ms, cnt, KDecide(r), waits);
  }

  class Sem {
    var cnt: nat

    /** wrapSemCreate */
    constructor (cnt: nat)
      ensures this.cnt == cnt
    {
      this.cnt := cnt;
    }

    /** The increment of an unsigned int; what it is worth to a take says GiveThenTake. */
    method Give()
      requires cnt < TWO_TO_32
      modifies this
      ensures cnt == Pass(old(cnt), GLock) < TWO_TO_32
    {
      PassCounts(cnt);
      cnt := if cnt + 1 == TWO_TO_32 then 0 else cnt + 1;
    }

    /** The take of a thread whose waits end as `waits` says, in that order; `used` of them it
        needs, and None means that its last wait has not ended. */
    method Take(ms: int, waits: seq<Wait>) returns (res: Option<Result>, used: nat)
      requires cnt < TWO_TO_32 && forall w | w in waits :: Possible(ms, w)
      modifies this
      ensures Await(ms, old(cnt), KTest, waits) == (cnt, if res.Some? then KUnlock(res.value) else KAsleep)
      ensures used <= |waits| && (used > 0 ==> old(cnt) == 0)
      ensures forall i | 0 <= i < used - 1 :: waits[i] == Wait(Zero, 0)
      ensures var seen := if used == 0 then old(cnt) else waits[used - 1].cnt;
        var r := if used == 0 then Zero else waits[used - 1].r;
        && (res.None? <==> seen == 0 && r == Zero)
        && (res.None? ==> used == |waits|)
        && (res == Some(Ok) <==> seen > 0)
        && (res == Some(Timeout) <==> seen == 0 && r == TimedOut)
        && cnt == if seen > 0 then seen - 1 else 0
    {
      hide Await;
      var r := Zero;
      used := 0;
      if cnt == 0 {
        AwaitStep(ms, cnt, KTest, waits);
        AwaitStep(ms, cnt, KReturned(Zero), waits);
        while cnt == 0 && r == Zero
          invariant used <= |waits|
          invariant Await(ms, 0, KTest, waits) == Await(ms, cnt, KReturned(r), waits[used..])
          invariant forall i | 0 <= i < used - 1 :: waits[i] == Wait(Zero, 0)
          invariant if used == 0 then cnt == 0 && r == Zero else waits[used - 1] == Wait(r, cnt)
          decreases |waits| - used
        {
          AwaitRound(ms, waits[used..]);
          if used == |waits| {
            return None, used;
          }
          r, cnt := waits[used].r, waits[used].cnt;
          used := used + 1;
        }
        AwaitEnd(ms, cnt, r, waits[used..]);
      } else {
        TakesAtOnce(ms, cnt, waits);
      }
      if cnt == 0 {
        res := Some(if r == TimedOut then Timeout else Error);
      } else {
        cnt := cnt - 1;
        res := Some(Ok);
      }
    }
  }

  lemma {:induction false} TakesAtOnce(ms: int, cnt: nat, waits: seq<Wait>)
    requires cnt > 0
    ensures Await(ms, cnt, KTest, waits) == (cnt - 1, KUnlock(Ok))
  {
    hide Await;
    AwaitStep(ms, cnt, KTest, waits);
    AwaitStep(ms, cnt, KDecide(Zero), waits);
    AwaitUnlocked(ms, cnt - 1, Ok, waits);
  }

  lemma {:induction false} AwaitUnlocked(ms: int, cnt: nat, res: Result, waits: seq<Wait>)
    ensures Await(ms, cnt, KUnlock(res), waits) == (cnt, KUnlock(res))
  {
  }
}
