/**
  The end of the consumer: once m_run is false, the loop of Buffer::Run is left after a fixed number
  of its own steps, whatever the other threads do.
*/
module RecorderShutdown {
  import opened RecorderMachine
  import opened RecorderDeadlock
  import opened BufferThread

  /** The steps that the consumer can still take when m_run is false. */
  function StepsLeft(k: Sink): nat {
    if k.pc.CExit? then 0 else 1 + RoundRank(k.pc)
  }

  function ConsumerSteps(actions: seq<Action>): nat
  {
    if actions == [] then 0
    else ConsumerSteps(actions[..|actions| - 1]) + if actions[|actions| - 1].Consume? then 1 else 0
  }

  lemma {:induction false} SinkComesCloser(c: Control, m: Media, k: Sink, ok: bool)
    requires !c.run && !k.pc.CExit?
    ensures StepsLeft(SinkNext(c, m, k, ok)) < StepsLeft(k)
  {
    if !k.pc.CTop? {
      StepsDown(c, m, k, ok);
    }
  }

  /** No instruction sets m_run. */
  lemma {:induction false} StaysStopped(s: State, a: Action)
    requires Enabled(s, a) && !s.ctl.run
    ensures !Apply(s, a).ctl.run
  {
  }

  lemma {:induction false} OneStepCloser(s: State, a: Action)
    requires Enabled(s, a) && !s.ctl.run
    ensures StepsLeft(Apply(s, a).sink) + (if a.Consume? then 1 else 0) <= StepsLeft(s.sink)
  {
    hide Do, WorkInstr, WorkNext, SinkNext, StepsLeft;
    if a.Consume? {
      SinkComesCloser(s.ctl, s.media, s.sink, a.ch.ok);
    }
  }

  /** However the threads are scheduled after m_run became false: the consumer takes at most as many
      steps as are left of its round and one more, so at most 13, is never blocked before it leaves
      the loop, and has left it when all these steps are taken. */
  lemma {:induction false} ConsumerLeaves(tr: seq<State>, actions: seq<Action>)
    requires Leads(tr, actions) && !tr[0].ctl.run
    ensures var last := tr[|actions|];
      && !last.ctl.run
      && ConsumerSteps(actions) + StepsLeft(last.sink) <= StepsLeft(tr[0].sink) <= 13
      && (!last.sink.pc.CExit? ==> Enabled(last, Consume(QUIET)))
      && (ConsumerSteps(actions) == StepsLeft(tr[0].sink) ==> last.sink.pc.CExit?)
    decreases |actions|
  {
    hide Apply, SinkNext;
    if actions == [] {
    } else {
      var n := |actions| - 1;
      ConsumerLeaves(tr[..n + 1], actions[..n]);
      StaysStopped(tr[n], actions[n]);
      OneStepCloser(tr[n], actions[n]);
    }
  }
}
