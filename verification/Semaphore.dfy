/**
  The counting semaphore of baseif.cpp, made of a mutex, a condition variable and a counter, used
  by any number of threads.  A step is one access to the counter or one operation of the mutex or
  of the condition.  Waits may end by a signal, by a timeout or for no reason at all, and a thread
  that is already on its way back to the mutex may still swallow a signal.
*/
module Semaphore {
  import opened Option

  /** The counter is an unsigned int: `++` wraps around. */
  const TWO_TO_32: nat := 0x1_0000_0000

  /** What pthread_cond_wait and pthread_cond_timedwait return: 0, ETIMEDOUT, or another error. */
  datatype Ret = Zero | TimedOut | Failed

  /** WRAPOS_OK, WRAPOS_TIMEOUT, WRAPOS_ERROR */
  datatype Result = Ok | Timeout | Error

  datatype GivePc = GLock | GIncrement | GSignal | GUnlock

  datatype TakePc =
    | KLock                          // pthread_mutex_lock
    | KTest                          // if (cnt == 0)
    | KWhile                         // the test of cnt in the wait loop
    | KWait                          // about to wait
    | KAsleep                        // on the condition
    | KAwake(r: Ret, signalled: bool) // wait is over, the mutex not yet taken back
    | KReturned(r: Ret)              // the test of r in the wait loop
    | KDecide(r: Ret)                // the second test of cnt
    | KUnlock(res: Result)

  datatype Thread = Idle | Giving(g: GivePc) | Taking(ms: int, k: TakePc)

  /** One finished decision of a take: its result, what the wait had returned, the argument and
      the counter it saw. */
  datatype Decision = Decision(res: Result, r: Ret, ms: int, seen: nat)

  /** The fields after `threads` are history. */
  datatype State = State(
    owner: Option<nat>,
    cnt: nat,
    threads: seq<Thread>,
    gives: nat,
    wraps: nat, // increments that found the counter at its maximum
    log: seq<Decision>
  )

  datatype Action =
    | BeginGive(t: nat)
    | BeginTake(t: nat, ms: int)
    | Go(t: nat, fails: bool)               // the next step of t; a wait may fail at once
    | Signal(t: nat, target: Option<nat>)   // the signal of t reaches target
    | Wake(t: nat)                          // spurious wakeup
    | Expire(t: nat)                        // the deadline of t passes

  // ---------------------------------------------------------------- steps

  predicate NeedsMutex(th: Thread) {
    match th
    case Giving(g) => g.GLock?
    case Taking(_, k) => k.KLock? || k.KAwake?
    case Idle => false
  }

  /** The thread owns the mutex. */
  predicate Holds(th: Thread)
  {
    match th
    case Giving(g) => !g.GLock?
    case Taking(_, k) => !(k.KLock? || k.KAsleep? || k.KAwake?)
    case Idle => false
  }

  predicate Asleep(th: Thread) { th.Taking? && th.k.KAsleep? }

  /** A signal can reach a sleeper, or a thread that has just stopped sleeping. */
  predicate Signallable(th: Thread) {
    th.Taking? && (th.k.KAsleep? || (th.k.KAwake? && !th.k.signalled))
  }

  function Signalled(th: Thread): Thread
    requires Signallable(th)
  {
    Taking(th.ms, KAwake(if th.k.KAsleep? then Zero else th.k.r, true))
  }

  predicate Enabled(s: State, a: Action)
  {
    match a
    case BeginGive(t) => t < |s.threads| && s.threads[t].Idle?
    case BeginTake(t, _) => t < |s.threads| && s.threads[t].Idle?
    case Go(t, _) =>
      && t < |s.threads| && !s.threads[t].Idle? && !Asleep(s.threads[t]) && s.threads[t] != Giving(GSignal)
      && (NeedsMutex(s.threads[t]) ==> s.owner.None?)
    case Signal(t, target) =>
      && t < |s.threads| && s.threads[t] == Giving(GSignal)
      && (match target
          case None => forall u | 0 <= u < |s.threads| :: !Asleep(s.threads[u])
          case Some(u) => u < |s.threads| && Signallable(s.threads[u]))
    case Wake(t) => t < |s.threads| && Asleep(s.threads[t])
    case Expire(t) => t < |s.threads| && Asleep(s.threads[t]) && s.threads[t].ms >= 0
  }

  function OwnerAfter(owner: Option<nat>, t: nat, th: Thread, fails: bool): Option<nat>
  {
    if NeedsMutex(th) then Some(t)
    else if th == Giving(GUnlock) || (th.Taking? && (th.k.KUnlock? || (th.k.KWait? && !fails))) then None
    else owner
  }

  /** The next program counter, baseif.cpp:88-128; a wait that fails has no effect; `cnt` is the
      counter before the step. */
  function ThreadAfter(cnt: nat, th: Thread, fails: bool): Thread
  {
    match th
    case Idle => Idle
    case Giving(GLock) => Giving(GIncrement)
    case Giving(GIncrement) => Giving(GSignal)
    case Giving(GSignal) => Giving(GUnlock)
    case Giving(GUnlock) => Idle
    case Taking(ms, k) =>
      match k
      case KLock => Taking(ms, KTest)
      case KTest => Taking(ms, if cnt == 0 then KWhile else KDecide(Zero))
      case KWhile => Taking(ms, if cnt == 0 then KWait else KDecide(Zero))
      case KWait => Taking(ms, if fails then KReturned(Failed) else KAsleep)
      case KAsleep => th
      case KAwake(r, _) => Taking(ms, KReturned(r))
      case KReturned(r) => Taking(ms, if r.Zero? then KWhile else KDecide(r))
      case KDecide(r) => Taking(ms, KUnlock(Verdict(cnt, r)))
      case KUnlock(_) => Idle
  }

  /** baseif.cpp:118-125 */
  function Verdict(cnt: nat, r: Ret): Result {
    if cnt > 0 then Ok else if r.TimedOut? then Timeout else Error
  }

  predicate Decides(th: Thread) { th.Taking? && th.k.KDecide? }

  function CntAfter(cnt: nat, th: Thread): nat
  {
    if th == Giving(GIncrement) then (cnt + 1) % TWO_TO_32
    else if Decides(th) && cnt > 0 then cnt - 1
    else cnt
  }

  function Apply(s: State, a: Action): State
    requires Enabled(s, a)
  {
    match a
    case BeginGive(t) => s.(threads := s.threads[t := Giving(GLock)])
    case BeginTake(t, ms) => s.(threads := s.threads[t := Taking(ms, KLock)])
    case Go(t, fails) =>
      var th := s.threads[t];
      State(
        OwnerAfter(s.owner, t, th, fails),
        CntAfter(s.cnt, th),
        s.threads[t := ThreadAfter(s.cnt, th, fails)],
        if th == Giving(GIncrement) then s.gives + 1 else s.gives,
        if th == Giving(GIncrement) && s.cnt + 1 == TWO_TO_32 then s.wraps + 1 else s.wraps,
        if Decides(th) then s.log + [Decision(Verdict(s.cnt, th.k.r), th.k.r, th.ms, s.cnt)] else s.log)
    case Signal(t, target) =>
      s.(threads := (if target.Some? then s.threads[target.value := Signalled(s.threads[target.value])] else s.threads)
                    [t := Giving(GUnlock)])
    case Wake(t) => s.(threads := s.threads[t := Taking(s.threads[t].ms, KAwake(Zero, false))])
    case Expire(t) => s.(threads := s.threads[t := Taking(s.threads[t].ms, KAwake(TimedOut, false))])
  }

  /** wrapSemCreate(sem, cnt), with any number of threads. */
  predicate Init(s: State, cnt: nat)
  {
    && cnt < TWO_TO_32
    && s.owner.None? && s.cnt == cnt && s.gives == 0 && s.wraps == 0 && s.log == []
    && forall t | 0 <= t < |s.threads| :: s.threads[t].Idle?
  }

  ghost predicate Next(s: State, s': State) { exists a :: Enabled(s, a) && s' == Apply(s, a) }

  ghost predicate StepAt(tr: seq<State>, i: int)
    requires 0 < i < |tr|
  {
    Next(tr[i - 1], tr[i])
  }

  /** Consecutive states are one step apart. */
  ghost predicate Steps(tr: seq<State>) { forall i | 0 < i < |tr| :: StepAt(tr, i) }

  ghost predicate Run(tr: seq<State>, cnt: nat) {
    |tr| > 0 && Init(tr[0], cnt) && Steps(tr)
  }

  // ---------------------------------------------------------------- the invariant

  /** A token counted in `cnt` that this thread is going to pass on or take: it was signalled, it
      has incremented and not signalled yet, or it holds the mutex and has not decided. */
  function Claim(th: Thread): nat
  {
    match th
    case Giving(g) => if g.GSignal? then 1 else 0
    case Taking(_, k) =>
      (match k
       case KAwake(_, signalled) => if signalled then 1 else 0
       case KTest | KWhile | KReturned(_) | KDecide(_) => 1
       case _ => 0)
    case Idle => 0
  }

  function Claims(ths: seq<Thread>): nat {
    if ths == [] then 0 else Claim(ths[0]) + Claims(ths[1..])
  }

  ghost predicate SomeAsleep(ths: seq<Thread>) { exists t :: 0 <= t < |ths| && Asleep(ths[t]) }

  /** What a thread knows about the counter while it holds the mutex. */
  predicate ThreadOk(cnt: nat, th: Thread)
  {
    match th
    case Taking(ms, KWait) => cnt == 0
    case Taking(ms, KAwake(r, _)) => r.TimedOut? ==> ms >= 0
    case Taking(ms, KReturned(r)) => r.TimedOut? ==> ms >= 0
    case Taking(ms, KDecide(r)) => (r.TimedOut? ==> ms >= 0) && (r.Zero? ==> cnt > 0)
    case _ => true
  }

  function CountOk(log: seq<Decision>): nat {
    if log == [] then 0 else CountOk(log[..|log| - 1]) + (if log[|log| - 1].res.Ok? then 1 else 0)
  }

  /** What a decision says about the counter at that moment. */
  predicate DecisionOk(d: Decision)
  {
    && (d.res.Ok? <==> d.seen > 0)
    && (d.res.Timeout? ==> d.r.TimedOut? && d.ms >= 0)
    && (d.res.Error? ==> d.r.Failed?)
  }

  ghost predicate Inv(s: State, init: nat)
  {
    && s.cnt < TWO_TO_32
    && (forall t | 0 <= t < |s.threads| :: (s.owner == Some(t)) == Holds(s.threads[t]))
    && (s.owner.Some? ==> s.owner.value < |s.threads|)
    && (forall t | 0 <= t < |s.threads| :: ThreadOk(s.cnt, s.threads[t]))
    && (SomeAsleep(s.threads) ==> Claims(s.threads) >= s.cnt)
    && init + s.gives == s.cnt + CountOk(s.log) + TWO_TO_32 * s.wraps
    && (forall i | 0 <= i < |s.log| :: DecisionOk(s.log[i]))
  }

  // ---------------------------------------------------------------- its preservation

  lemma {:induction false} ClaimsUpdate(ths: seq<Thread>, t: nat, th: Thread)
    requires t < |ths|
    ensures Claims(ths[t := th]) == Claims(ths) - Claim(ths[t]) + Claim(th)
  {
    if t == 0 {
      assert ths[t := th][1..] == ths[1..];
    } else {
      assert ths[t := th][1..] == ths[1..][t - 1 := th];
      ClaimsUpdate(ths[1..], t - 1, th);
    }
  }

  /** The promise to a thread depends on the counter only while that thread holds the mutex. */
  lemma {:induction false} OthersOk(cnt: nat, cnt': nat, th: Thread)
    requires ThreadOk(cnt, th) && (Holds(th) ==> cnt' == cnt)
    ensures ThreadOk(cnt', th)
  {
  }

  lemma {:induction false} StepClaims(cnt: nat, th: Thread, fails: bool)
    requires cnt < TWO_TO_32 && ThreadOk(cnt, th) && !Asleep(th) && th != Giving(GSignal)
    ensures var th' := ThreadAfter(cnt, th, fails);
      && ThreadOk(CntAfter(cnt, th), th')
      && (CntAfter(cnt, th) - Claim(th') <= cnt - Claim(th) || CntAfter(cnt, th) == 0)
    ensures Asleep(ThreadAfter(cnt, th, fails)) ==> CntAfter(cnt, th) == 0
  {
  }

  lemma {:induction false} StepHolds(cnt: nat, owner: Option<nat>, t: nat, th: Thread, fails: bool)
    requires (owner == Some(t)) == Holds(th) && (NeedsMutex(th) ==> owner.None?)
    requires !th.Idle? && !Asleep(th) && th != Giving(GSignal)
    ensures (OwnerAfter(owner, t, th, fails) == Some(t)) == Holds(ThreadAfter(cnt, th, fails))
    ensures OwnerAfter(owner, t, th, fails) in {owner, Some(t), None}
    ensures owner.Some? && owner.value != t ==> OwnerAfter(owner, t, th, fails) == owner
  {
  }

  lemma {:induction false} TokensKept(s: State, init: nat, t: nat, fails: bool)
    requires Inv(s, init) && Enabled(s, Go(t, fails))
    ensures var s' := Apply(s, Go(t, fails));
      && s'.cnt < TWO_TO_32
      && init + s'.gives == s'.cnt + CountOk(s'.log) + TWO_TO_32 * s'.wraps
      && forall i | 0 <= i < |s'.log| :: DecisionOk(s'.log[i])
  {
    var th := s.threads[t];
    if Decides(th) {
      var d := Decision(Verdict(s.cnt, th.k.r), th.k.r, th.ms, s.cnt);
      assert (s.log + [d])[..|s.log|] == s.log;
    }
  }

  lemma {:induction false} SleepersKept(s: State, init: nat, t: nat, fails: bool)
    requires Inv(s, init) && Enabled(s, Go(t, fails))
    ensures var s' := Apply(s, Go(t, fails)); SomeAsleep(s'.threads) ==> Claims(s'.threads) >= s'.cnt
  {
    var s' := Apply(s, Go(t, fails));
    var th := s.threads[t];
    StepClaims(s.cnt, th, fails);
    ClaimsUpdate(s.threads, t, ThreadAfter(s.cnt, th, fails));
    if SomeAsleep(s'.threads) && s'.cnt > 0 {
      var u :| 0 <= u < |s'.threads| && Asleep(s'.threads[u]);
      assert u != t;
      assert Asleep(s.threads[u]);
    }
  }

  lemma {:induction false} OwnersKept(s: State, init: nat, t: nat, fails: bool)
    requires Inv(s, init) && Enabled(s, Go(t, fails))
    ensures var s' := Apply(s, Go(t, fails));
      && (forall u | 0 <= u < |s'.threads| :: (s'.owner == Some(u)) == Holds(s'.threads[u]))
      && (s'.owner.Some? ==> s'.owner.value < |s'.threads|)
      && (forall u | 0 <= u < |s'.threads| :: ThreadOk(s'.cnt, s'.threads[u]))
  {
    var s' := Apply(s, Go(t, fails));
    var th := s.threads[t];
    StepClaims(s.cnt, th, fails);
    StepHolds(s.cnt, s.owner, t, th, fails);
    forall u | 0 <= u < |s'.threads| && u != t ensures ThreadOk(s'.cnt, s'.threads[u]) {
      OthersOk(s.cnt, s'.cnt, s.threads[u]);
    }
  }

  lemma {:induction false} InvAfterSignal(s: State, init: nat, t: nat, target: Option<nat>)
    requires Inv(s, init) && Enabled(s, Signal(t, target))
    ensures Inv(Apply(s, Signal(t, target)), init)
  {
    hide CountOk, DecisionOk, Claims;
    var s' := Apply(s, Signal(t, target));
    var mid := if target.Some? then s.threads[target.value := Signalled(s.threads[target.value])] else s.threads;
    if target.Some? {
      ClaimsUpdate(s.threads, target.value, Signalled(s.threads[target.value]));
    }
    ClaimsUpdate(mid, t, Giving(GUnlock));
    if SomeAsleep(s'.threads) {
      var u :| 0 <= u < |s'.threads| && Asleep(s'.threads[u]);
      assert Asleep(s.threads[u]);
    }
  }

  lemma {:induction false} InvAfterSleepEnds(s: State, init: nat, t: nat, r: Ret)
    requires Inv(s, init) && t < |s.threads| && Asleep(s.threads[t])
    requires r.TimedOut? ==> s.threads[t].ms >= 0
    ensures Inv(s.(threads := s.threads[t := Taking(s.threads[t].ms, KAwake(r, false))]), init)
  {
    ClaimsUpdate(s.threads, t, Taking(s.threads[t].ms, KAwake(r, false)));
    assert SomeAsleep(s.threads);
  }

  lemma {:induction false} InvAfterBegin(s: State, init: nat, t: nat, th: Thread)
    requires Inv(s, init) && t < |s.threads| && s.threads[t].Idle?
    requires th == Giving(GLock) || (th.Taking? && th.k == KLock)
    ensures Inv(s.(threads := s.threads[t := th]), init)
  {
    ClaimsUpdate(s.threads, t, th);
    var ths := s.threads[t := th];
    if SomeAsleep(ths) {
      var u :| 0 <= u < |ths| && Asleep(ths[u]);
      assert Asleep(s.threads[u]);
    }
  }

  lemma {:induction false} InvAfter(s: State, init: nat, a: Action)
    requires Inv(s, init) && Enabled(s, a)
    ensures Inv(Apply(s, a), init)
  {
    match a
    case BeginGive(t) => InvAfterBegin(s, init, t, Giving(GLock));
    case BeginTake(t, ms) => InvAfterBegin(s, init, t, Taking(ms, KLock));
    case Go(t, fails) =>
      TokensKept(s, init, t, fails);
      SleepersKept(s, init, t, fails);
      OwnersKept(s, init, t, fails);
    case Signal(t, target) => InvAfterSignal(s, init, t, target);
    case Wake(t) => InvAfterSleepEnds(s, init, t, Zero);
    case Expire(t) => InvAfterSleepEnds(s, init, t, TimedOut);
  }

  lemma {:induction false} StepBefore(tr: seq<State>, cnt: nat, i: nat) returns (a: Action)
    requires Run(tr, cnt) && 0 < i < |tr|
    ensures Enabled(tr[i - 1], a) && tr[i] == Apply(tr[i - 1], a)
  {
    hide Enabled, Apply, Init;
    assert StepAt(tr, i);
    a :| Enabled(tr[i - 1], a) && tr[i] == Apply(tr[i - 1], a);
  }

  lemma {:induction false} NoneClaims(ths: seq<Thread>)
    requires forall t | 0 <= t < |ths| :: ths[t].Idle?
    ensures Claims(ths) == 0 && !SomeAsleep(ths)
  {
    if ths == [] {
    } else {
      NoneClaims(ths[1..]);
    }
  }

  /** The invariant holds in every state of every run, with any number of threads. */
  lemma {:induction false} InvOfRun(tr: seq<State>, cnt: nat, i: nat)
    requires Run(tr, cnt) && i < |tr|
    ensures Inv(tr[i], cnt)
  {
    if i == 0 {
      NoneClaims(tr[0].threads);
    } else {
      hide *;
      InvOfRun(tr, cnt, i - 1);
      var a := StepBefore(tr, cnt, i);
      InvAfter(tr[i - 1], cnt, a);
    }
  }

  // ---------------------------------------------------------------- what it means

  predicate IsSignalled(th: Thread) { th.Taking? && th.k.KAwake? && th.k.signalled }

  /** The threads that were signalled and have not run since. */
  function SignalledCount(ths: seq<Thread>): nat {
    if ths == [] then 0 else (if IsSignalled(ths[0]) then 1 else 0) + SignalledCount(ths[1..])
  }

  /** The claim of the thread that owns the mutex: the token that it is about to pass on, or about
      to decide on. */
  function OwnClaim(ths: seq<Thread>, owner: Option<nat>): nat {
    if owner.Some? && owner.value < |ths| then Claim(ths[owner.value]) else 0
  }

  /** Besides the signalled threads only the owner of the mutex can have a claim. */
  lemma {:induction false} ClaimsAreSignals(ths: seq<Thread>, owner: Option<nat>)
    requires forall t | 0 <= t < |ths| :: owner == Some(t) <==> Holds(ths[t])
    ensures Claims(ths) == SignalledCount(ths) + OwnClaim(ths, owner)
  {
    if ths == [] {
    } else {
      var rest := if owner.Some? && owner.value > 0 then Some(owner.value - 1) else None;
      forall t | 0 <= t < |ths[1..]| ensures rest == Some(t) <==> Holds(ths[1..][t]) {
        assert owner == Some(t + 1) <==> Holds(ths[t + 1]);
      }
      ClaimsAreSignals(ths[1..], rest);
      assert owner == Some(0) <==> Holds(ths[0]);
    }
  }

  /** No wakeup is lost: while some thread sleeps, the signalled threads that have not run yet
      number at least the tokens, but for one that the owner of the mutex has in its hands. */
  lemma {:induction false} NoLostWakeup(tr: seq<State>, cnt: nat, i: nat)
    requires Run(tr, cnt) && i < |tr| && SomeAsleep(tr[i].threads)
    ensures SignalledCount(tr[i].threads) + OwnClaim(tr[i].threads, tr[i].owner) >= tr[i].cnt
    ensures tr[i].owner.None? ==> SignalledCount(tr[i].threads) >= tr[i].cnt
  {
    hide Run;
    InvOfRun(tr, cnt, i);
    ClaimsAreSignals(tr[i].threads, tr[i].owner);
  }

  lemma {:induction false} FindSignalled(ths: seq<Thread>) returns (u: nat)
    requires SignalledCount(ths) > 0
    ensures u < |ths| && IsSignalled(ths[u])
  {
    if IsSignalled(ths[0]) {
      u := 0;
    } else {
      var v := FindSignalled(ths[1..]);
      u := v + 1;
    }
  }

  /** Thread `u` took one token and is about to return OK. */
  predicate TookAToken(s: State, s': State, u: nat)
  {
    && s'.cnt == s.cnt - 1
    && u < |s'.threads| && s'.threads[u].Taking? && s'.threads[u].k == KUnlock(Ok)
  }

  lemma {:induction false} Extend(tr: seq<State>, a: Action) returns (tr': seq<State>)
    requires |tr| > 0 && Steps(tr) && Enabled(tr[|tr| - 1], a)
    ensures |tr'| == |tr| + 1 && tr' == tr + [Apply(tr[|tr| - 1], a)] && Steps(tr')
  {
    hide Enabled, Apply;
    tr' := tr + [Apply(tr[|tr| - 1], a)];
    forall i | 0 < i < |tr'| ensures StepAt(tr', i) {
      if i == |tr| {
        assert Enabled(tr'[i - 1], a);
      } else {
        assert StepAt(tr, i) && tr'[i] == tr[i] && tr'[i - 1] == tr[i - 1];
      }
    }
  }

  lemma {:induction false} SignalledTakes(s: State, u: nat) returns (tr: seq<State>)
    requires s.owner.None? && s.cnt > 0 && u < |s.threads| && IsSignalled(s.threads[u])
    ensures |tr| > 0 && tr[0] == s && Steps(tr) && TookAToken(s, tr[|tr| - 1], u)
  {
    tr := Extend([s], Go(u, false));
    tr := Extend(tr, Go(u, false));
    tr := Extend(tr, Go(u, false));
    if s.threads[u].k.r.Zero? {
      tr := Extend(tr, Go(u, false));
    }
  }

  /** The point of no lost wakeup: whenever the mutex is free, a token is there and a thread
      sleeps, some signalled thread can go on by itself and take a token. */
  lemma {:induction false} TokenIsTaken(tr: seq<State>, cnt: nat, i: nat) returns (u: nat, ext: seq<State>)
    requires Run(tr, cnt) && i < |tr| && SomeAsleep(tr[i].threads) && tr[i].owner.None? && tr[i].cnt > 0
    ensures |ext| > 0 && ext[0] == tr[i] && Steps(ext) && TookAToken(tr[i], ext[|ext| - 1], u)
  {
    hide Run;
    NoLostWakeup(tr, cnt, i);
    u := FindSignalled(tr[i].threads);
    ext := SignalledTakes(tr[i], u);
  }

  /** Tokens are conserved: what was given is still counted, was taken by an OK, or was lost to the
      wrap-around of the unsigned counter.  Nothing is lost exactly while the tokens that were
      created or given and not taken fit the counter. */
  lemma {:induction false} TokensConserved(tr: seq<State>, cnt: nat, i: nat)
    requires Run(tr, cnt) && i < |tr|
    ensures var s := tr[i];
      && cnt + s.gives == s.cnt + CountOk(s.log) + TWO_TO_32 * s.wraps
      && s.cnt == (cnt + s.gives - CountOk(s.log)) % TWO_TO_32
      && (s.wraps == 0 <==> cnt + s.gives - CountOk(s.log) < TWO_TO_32)
      && (s.cnt == cnt + s.gives - CountOk(s.log) <==> s.wraps == 0)
  {
    hide Run;
    InvOfRun(tr, cnt, i);
    var s := tr[i];
    WrapsAway(cnt + s.gives - CountOk(s.log), s.cnt, s.wraps);
  }

  lemma {:induction false} WrapsAway(n: int, cnt: nat, wraps: nat)
    requires n == cnt + TWO_TO_32 * wraps && cnt < TWO_TO_32
    ensures cnt == n % TWO_TO_32
    ensures wraps == 0 <==> n < TWO_TO_32
  {
  }

  /** It can happen: one give on a full counter loses all tokens. */
  lemma {:induction false} TokensCanBeLost() returns (tr: seq<State>)
    ensures Run(tr, TWO_TO_32 - 1) && tr[|tr| - 1].gives == 1 && CountOk(tr[|tr| - 1].log) == 0
    ensures tr[|tr| - 1].cnt == 0 && tr[|tr| - 1].wraps == 1
  {
    hide Steps, StepAt;
    tr := [State(None, TWO_TO_32 - 1, [Idle], 0, 0, [])];
    OneState(tr[0]);
    tr := Extend(tr, BeginGive(0));
    tr := Extend(tr, Go(0, false));
    tr := Extend(tr, Go(0, false));
  }

  lemma {:induction false} OneState(s: State)
    ensures Steps([s])
  {
  }

  /** Every take that was decided: OK exactly when it saw a token, so also after a timeout;
      TIMEOUT only after the deadline of a timed wait, ERROR only after a failed wait, both only
      while there was no token. */
  lemma {:induction false} DecisionsAreRight(tr: seq<State>, cnt: nat, i: nat, d: Decision)
    requires Run(tr, cnt) && i < |tr| && d in tr[i].log
    ensures d.res.Ok? <==> d.seen > 0
    ensures d.res.Timeout? <==> d.seen == 0 && d.r.TimedOut?
    ensures d.res.Timeout? ==> d.ms >= 0
    ensures d.res.Error? ==> d.seen == 0 && d.r.Failed?
  {
    hide Run;
    InvOfRun(tr, cnt, i);
    var n :| 0 <= n < |tr[i].log| && tr[i].log[n] == d;
    assert DecisionOk(d);
  }

  /** At most one thread is inside a critical section. */
  lemma {:induction false} MutualExclusion(tr: seq<State>, cnt: nat, i: nat, t: nat, u: nat)
    requires Run(tr, cnt) && i < |tr| && t < |tr[i].threads| && u < |tr[i].threads|
    requires Holds(tr[i].threads[t]) && Holds(tr[i].threads[u])
    ensures t == u
  {
    hide Run;
    InvOfRun(tr, cnt, i);
  }

  // ---------------------------------------------------------------- whole calls

  ghost predicate Reaches(s: State, s': State) {
    exists tr :: |tr| > 0 && Steps(tr) && tr[0] == s && tr[|tr| - 1] == s'
  }

  /** The sleeper `u`, if it is one of the threads, has been signalled. */
  function Signalling(ths: seq<Thread>, u: nat): seq<Thread>
    requires u < |ths| ==> ths[u].Taking?
  {
    if u < |ths| then ths[u := Taking(ths[u].ms, KAwake(Zero, true))] else ths
  }

  lemma {:induction false} ReachesItself(s: State)
    ensures Reaches(s, s)
  {
    OneState(s);
  }

  lemma {:induction false} ReachesNext(s: State, s': State, a: Action)
    requires Reaches(s, s') && Enabled(s', a)
    ensures Reaches(s, Apply(s', a))
  {
    hide Steps, Enabled, Apply;
    var tr :| |tr| > 0 && Steps(tr) && tr[0] == s && tr[|tr| - 1] == s';
    var longer := Extend(tr, a);
  }

  /** The state in which thread `t` is at `th`. */
  function At(s: State, t: nat, owner: Option<nat>, th: Thread): State
    requires t < |s.threads|
  {
    s.(owner := owner, threads := s.threads[t := th])
  }

  /** A step of thread `t` that leaves the counter alone. */
  lemma {:induction false} Goes(s: State, s0: State, t: nat, owner: Option<nat>, th: Thread, fails: bool)
    requires t < |s.threads| && Reaches(s0, At(s, t, owner, th))
    requires !th.Idle? && !Asleep(th) && !th.Giving? && !Decides(th) && (NeedsMutex(th) ==> owner.None?)
    ensures Reaches(s0, At(s, t, OwnerAfter(owner, t, th, fails), ThreadAfter(s.cnt, th, fails)))
  {
    hide Reaches, OwnerAfter, ThreadAfter, NeedsMutex;
    ReachesNext(s0, At(s, t, owner, th), Go(t, fails));
    assert s.threads[t := th][t := ThreadAfter(s.cnt, th, fails)] == s.threads[t := ThreadAfter(s.cnt, th, fails)];
  }

  /** From the decision on: the counter is taken down exactly if it is not 0. */
  lemma {:induction false} Decided(s: State, s0: State, t: nat, ms: int, r: Ret)
    requires t < |s.threads| && s.threads[t].Idle? && s.owner.None?
    requires Reaches(s0, At(s, t, Some(t), Taking(ms, KDecide(r))))
    ensures var res := if s.cnt > 0 then Ok else if r.TimedOut? then Timeout else Error;
      Reaches(s0, s.(cnt := if s.cnt > 0 then s.cnt - 1 else 0, log := s.log + [Decision(res, r, ms, s.cnt)]))
  {
    hide Reaches;
    var s1 := At(s, t, Some(t), Taking(ms, KDecide(r)));
    ReachesNext(s0, s1, Go(t, false));
    var s2 := Apply(s1, Go(t, false));
    ReachesNext(s0, s2, Go(t, false));
    assert s2.threads[t := Idle] == s.threads;
  }

  lemma {:induction false} Begins(s: State, t: nat, ms: int)
    requires t < |s.threads| && s.threads[t].Idle? && s.owner.None?
    ensures Reaches(s, At(s, t, Some(t), Taking(ms, KTest)))
  {
    hide Reaches;
    ReachesItself(s);
    ReachesNext(s, s, BeginTake(t, ms));
    Goes(s, s, t, None, Taking(ms, KLock), false);
  }

  /** A take that finds a token takes it without waiting. */
  lemma {:induction false} TakeTakes(s: State, t: nat, ms: int)
    requires t < |s.threads| && s.threads[t].Idle? && s.owner.None? && s.cnt > 0
    ensures Reaches(s, s.(cnt := s.cnt - 1, log := s.log + [Decision(Ok, Zero, ms, s.cnt)]))
  {
    hide Reaches;
    Begins(s, t, ms);
    Goes(s, s, t, Some(t), Taking(ms, KTest), false);
    Decided(s, s, t, ms, Zero);
  }

  lemma {:induction false} Waits(s: State, t: nat, ms: int, fails: bool)
    requires t < |s.threads| && s.threads[t].Idle? && s.owner.None? && s.cnt == 0
    ensures if fails then Reaches(s, At(s, t, Some(t), Taking(ms, KReturned(Failed))))
            else Reaches(s, At(s, t, None, Taking(ms, KAsleep)))
  {
    hide Reaches;
    Begins(s, t, ms);
    Goes(s, s, t, Some(t), Taking(ms, KTest), false);
    Goes(s, s, t, Some(t), Taking(ms, KWhile), false);
    Goes(s, s, t, Some(t), Taking(ms, KWait), fails);
  }

  /** Without a token a take sleeps; if its time runs out it ends with TIMEOUT, and if the wait fails
      with ERROR, and neither takes anything. */
  lemma {:induction false} TakeWithoutToken(s: State, t: nat, ms: int)
    requires t < |s.threads| && s.threads[t].Idle? && s.owner.None? && s.cnt == 0
    ensures Reaches(s, s.(threads := s.threads[t := Taking(ms, KAsleep)]))
    ensures ms >= 0 ==> Reaches(s, s.(log := s.log + [Decision(Timeout, TimedOut, ms, 0)]))
    ensures Reaches(s, s.(log := s.log + [Decision(Error, Failed, ms, 0)]))
  {
    hide Reaches;
    Waits(s, t, ms, true);
    Goes(s, s, t, Some(t), Taking(ms, KReturned(Failed)), false);
    Decided(s, s, t, ms, Failed);
    Waits(s, t, ms, false);
    assert At(s, t, None, Taking(ms, KAsleep)) == s.(threads := s.threads[t := Taking(ms, KAsleep)]);
    if ms >= 0 {
      Expires(s, t, ms);
    }
  }

  lemma {:induction false} Expires(s: State, t: nat, ms: int)
    requires t < |s.threads| && s.threads[t].Idle? && s.owner.None? && s.cnt == 0 && ms >= 0
    requires Reaches(s, At(s, t, None, Taking(ms, KAsleep)))
    ensures Reaches(s, s.(log := s.log + [Decision(Timeout, TimedOut, ms, 0)]))
  {
    hide Reaches;
    var asleep := At(s, t, None, Taking(ms, KAsleep));
    ReachesNext(s, asleep, Expire(t));
    assert Apply(asleep, Expire(t)) == At(s, t, None, Taking(ms, KAwake(TimedOut, false)));
    Goes(s, s, t, None, Taking(ms, KAwake(TimedOut, false)), false);
    Goes(s, s, t, Some(t), Taking(ms, KReturned(TimedOut)), false);
    Decided(s, s, t, ms, TimedOut);
  }

  /** Only a wait with a deadline times out, and a sleeper may wake up for no reason. */
  lemma {:induction false} SleepersWake(s: State, t: nat)
    requires t < |s.threads| && s.threads[t].Taking? && s.threads[t].k == KAsleep
    ensures Enabled(s, Expire(t)) <==> s.threads[t].ms >= 0
    ensures Enabled(s, Wake(t)) && Apply(s, Wake(t)).threads[t] == Taking(s.threads[t].ms, KAwake(Zero, false))
  {
  }

  /** A give adds a token, wakes a sleeper if there is one, and changes nothing else. */
  lemma {:induction false} GiveGives(s: State, t: nat, u: nat)
    requires t < |s.threads| && s.threads[t].Idle? && s.owner.None?
    requires u < |s.threads| ==> s.threads[u].Taking? && s.threads[u].k == KAsleep
    requires u >= |s.threads| ==> forall v | 0 <= v < |s.threads| :: !Asleep(s.threads[v])
    ensures Reaches(s, s.(cnt := (s.cnt + 1) % 0x1_0000_0000, gives := s.gives + 1,
                          wraps := if s.cnt + 1 == 0x1_0000_0000 then s.wraps + 1 else s.wraps,
                          threads := Signalling(s.threads, u)))
  {
    hide Reaches;
    ReachesItself(s);
    ReachesNext(s, s, BeginGive(t));
    var s1 := Apply(s, BeginGive(t));
    ReachesNext(s, s1, Go(t, false));
    var s2 := Apply(s1, Go(t, false));
    ReachesNext(s, s2, Go(t, false));
    var s3 := Apply(s2, Go(t, false));
    GiveSignals(s, s3, t, u);
  }

  lemma {:induction false} GiveSignals(s: State, s3: State, t: nat, u: nat)
    requires t < |s.threads| && s.threads[t].Idle?
    requires s3.owner == Some(t) && s3.threads == s.threads[t := Giving(GSignal)] && Reaches(s, s3)
    requires u < |s.threads| ==> s.threads[u].Taking? && s.threads[u].k == KAsleep
    requires u >= |s.threads| ==> forall v | 0 <= v < |s.threads| :: !Asleep(s.threads[v])
    ensures Reaches(s, s3.(owner := None, threads := Signalling(s.threads, u)))
  {
    hide Reaches;
    var target := if u < |s.threads| then Some(u) else None;
    ReachesNext(s, s3, Signal(t, target));
    var s4 := Apply(s3, Signal(t, target));
    ReachesNext(s, s4, Go(t, false));
    var s5 := Apply(s4, Go(t, false));
    assert s5.threads == Signalling(s.threads, u);
  }
}
