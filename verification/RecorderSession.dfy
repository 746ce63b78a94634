/**
  The command protocol on top of the recorder: what a peer is told of the first fatal error and of
  the state of the device, when the answers come from a run of the recorder.
*/
module RecorderSession {
  import opened Option
  import opened CNumber
  import opened Text
  import opened Protocol
  import opened Commands
  import opened CommandTheorems
  import R = RecorderMachine
  import RecorderLifecycle

  /** The commands that are answered from m_fatal under m_run_mutex. */
  function Asks(version: int, cmd: string): Option<R.QueryKind>
  {
    if IsNegotiation(cmd) then Some(R.ApiVersion)
    else
      var r := Request(version, cmd);
      if r.None? then None
      else
        match Keyed(r.value.1[0])
        case Some(KVersion) => Some(R.Version)
        case Some(KIsOpen) => Some(R.IsOpen)
        case _ => None
  }

  /** They are these three. */
  lemma {:induction false} AsksText(version: int, cmd: string)
    ensures Asks(version, cmd) == Some(R.ApiVersion) <==> "APIVersion?" <= cmd
    ensures Asks(version, cmd) == Some(R.Version) <==> Says(version, cmd, "Version?")
    ensures Asks(version, cmd) == Some(R.IsOpen) <==> Says(version, cmd, "IsOpen?")
    ensures Asks(version, cmd) != Some(R.SetVersion)
  {
    hide Keyed, UpTo, Split, Behind, Says;
    RequestText(version, cmd);
    SpokenQuery(version, cmd);
    SpokenIsNoNegotiation(version, cmd);
  }

  lemma {:induction false} SpokenIsNoNegotiation(version: int, cmd: string)
    ensures Says(version, cmd, "Version?") || Says(version, cmd, "IsOpen?") ==> !("APIVersion?" <= cmd)
  {
  }

  /** What such a command finds in the recorder. */
  function Found(k: R.QueryKind, w: World): R.Reply {
    if w.fatal.Some? then R.Err(w.fatal.value) else R.Fine(k, w.ready)
  }

  /** What the commands of a session find, in order. */
  function AllFound(c: Config, version: int, cmds: seq<string>, ws: seq<World>): seq<R.Reply>
    requires |ws| == |cmds| && AllParseable(c, version, cmds, ws)
    decreases |cmds|
  {
    if cmds == [] then []
    else
      var k := Asks(version, cmds[0]);
      (if k.Some? then [Found(k.value, ws[0])] else [])
      + AllFound(c, Respond(c, version, cmds[0], ws[0]).version, cmds[1..], ws[1..])
  }

  /** The number of answers of that kind before command `i`. */
  function Earlier(c: Config, version: int, cmds: seq<string>, ws: seq<World>, i: nat): nat
    requires |ws| == |cmds| && AllParseable(c, version, cmds, ws) && i <= |cmds|
    decreases i
  {
    if i == 0 then 0
    else
      (if Asks(version, cmds[0]).Some? then 1 else 0)
      + Earlier(c, Respond(c, version, cmds[0], ws[0]).version, cmds[1..], ws[1..], i - 1)
  }

  lemma {:induction false} FoundAt(c: Config, version: int, cmds: seq<string>, ws: seq<World>, i: nat)
    requires |ws| == |cmds| && AllParseable(c, version, cmds, ws) && i < |cmds|
    requires Asks(VersionAfter(c, version, cmds, ws, i), cmds[i]).Some?
    ensures var k := Asks(VersionAfter(c, version, cmds, ws, i), cmds[i]).value;
      var m := Earlier(c, version, cmds, ws, i);
      m < |AllFound(c, version, cmds, ws)| && AllFound(c, version, cmds, ws)[m] == Found(k, ws[i])
    decreases i
  {
    hide Respond, Parseable, Asks, Found;
    if i == 0 {
    } else {
      VersionLater(c, version, cmds, ws, i);
      FoundAt(c, Respond(c, version, cmds[0], ws[0]).version, cmds[1..], ws[1..], i - 1);
    }
  }

  lemma {:induction false} EarlierGrows(c: Config, version: int, cmds: seq<string>, ws: seq<World>, i: nat, j: nat)
    requires |ws| == |cmds| && AllParseable(c, version, cmds, ws) && i < j < |cmds|
    requires Asks(VersionAfter(c, version, cmds, ws, i), cmds[i]).Some?
    ensures Earlier(c, version, cmds, ws, i) < Earlier(c, version, cmds, ws, j)
    decreases i
  {
    hide Respond, Parseable, Asks;
    if i == 0 {
    } else {
      VersionLater(c, version, cmds, ws, i);
      EarlierGrows(c, Respond(c, version, cmds[0], ws[0]).version, cmds[1..], ws[1..], i - 1, j - 1);
    }
  }

  /** The status of such a command says what was found. */
  lemma {:induction false} StatusSays(c: Config, version: int, cmd: string, w: World)
    requires Parseable(version, cmd) && Asks(version, cmd).Some?
    ensures var status := Respond(c, version, cmd, w).status;
      && ("ERR:" <= status <==> w.fatal.Some?)
      && (w.fatal.Some? ==> status == "ERR:" + w.fatal.value)
      && (Asks(version, cmd) == Some(R.IsOpen) && w.fatal.None? ==>
            status == if w.ready then "OK:Open" else "WARN:Not Open yet")
  {
    hide Keyed, Split, Malformed, DataAnswer, ToString, IsNegotiation;
    var status := Respond(c, version, cmd, w).status;
    if w.fatal.None? {
      assert status[0] in {'O', 'W'};
    }
  }

  /** Over a session whose answers come from a run of the recorder: once one of APIVersion?, Version?
      and IsOpen? is answered with an error, that error is the first fatal one and all later ones of
      these commands have the same status; once IsOpen? is answered OK:Open, it is answered so until
      there is a fatal error. */
  lemma {:induction false} PeerSeesFirstFatal(
      c: Config, version: int, cmds: seq<string>, ws: seq<World>, i: nat, j: nat, tr: seq<R.State>, n: nat)
    requires |ws| == |cmds| && AllParseable(c, version, cmds, ws) && i < j < |cmds|
    requires R.Run(tr) && n < |tr| && AllFound(c, version, cmds, ws) <= tr[n].ctl.replies
    requires Asks(VersionAfter(c, version, cmds, ws, i), cmds[i]).Some?
    requires Asks(VersionAfter(c, version, cmds, ws, j), cmds[j]).Some?
    ensures var answers := Answers(c, version, cmds, ws);
      && ("ERR:" <= answers[i].status ==>
            answers[i].status == answers[j].status == "ERR:" + tr[n].ctl.fatalMsg)
      && (Asks(VersionAfter(c, version, cmds, ws, i), cmds[i]) == Some(R.IsOpen)
          && Asks(VersionAfter(c, version, cmds, ws, j), cmds[j]) == Some(R.IsOpen)
          && answers[i].status == "OK:Open" ==>
            answers[j].status in {"OK:Open", "ERR:" + tr[n].ctl.fatalMsg})
  {
    hide Respond, Parseable, Asks, R.Run, AllFound;
    var (v, u) := (VersionAfter(c, version, cmds, ws, i), VersionAfter(c, version, cmds, ws, j));
    FoundAt(c, version, cmds, ws, i);
    FoundAt(c, version, cmds, ws, j);
    EarlierGrows(c, version, cmds, ws, i, j);
    AnswerAt(c, version, cmds, ws, i);
    AnswerAt(c, version, cmds, ws, j);
    StatusSays(c, v, cmds[i], ws[i]);
    StatusSays(c, u, cmds[j], ws[j]);
    var (m, k) := (Earlier(c, version, cmds, ws, i), Earlier(c, version, cmds, ws, j));
    RecorderLifecycle.RepliesAgree(tr, n, n, m, k);
  }
}
