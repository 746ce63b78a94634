/**
  The command loop of Commands in MythTV.cpp: what is sent and done for each command, with version
  negotiation.  What other threads let a command see, and how its calls into the recorder end, is
  an arbitrary `World`.
*/
module Commands {
  import opened Option
  import opened CNumber
  import opened Text
  import opened Protocol

  const MAX_API_VERSION: int := 2

  /** m_params.version and m_desc */
  datatype Config = Config(version: string, desc: string)

  /** What one command meets: the fatal error, if any, m_ready, and how a start or a stop ends
      (None, or the error text). */
  datatype World = World(fatal: Option<string>, ready: bool, start: Option<string>, stop: Option<string>)

  datatype Effect =
    | OpenDev | Terminate | StartEncoding | StopEncoding | SetXon(on: bool) | SetBlockSize(size: nat)
    | Fatal(msg: string)

  datatype Event = Sent(line: string) | Did(effect: Effect)

  // ---------------------------------------------------------------- the meaning of a command

  /** The answer to a command: what is done before and after the one status line, the version it
      is framed with, and the version afterwards. */
  datatype Answer = Answer(
    serial: string, status: string, before: seq<Effect>, after: seq<Effect>, framing: int, version: int)

  predicate IsNegotiation(cmd: string) { "APIVersion?" <= cmd }

  /** The serial number and the remaining tokens, if the message has them. */
  function Request(version: int, cmd: string): Option<(string, seq<string>)>
  {
    var tokens := Split(cmd, ':');
    if version <= 1 then Some(("", tokens))
    else if |tokens| < 2 then None
    else Some((tokens[0], tokens[1..]))
  }

  /** The commands that pass their data to std::stoul. */
  predicate WantsNumber(version: int, cmd: string)
  {
    var r := Request(version, cmd);
    !IsNegotiation(cmd) && r.Some? && |r.value.1| >= 2
    && (Keyed(r.value.1[0]) == Some(KApiVersion) || Keyed(r.value.1[0]) == Some(KBlockSize))
  }

  /** std::stoul throws on anything else. */
  predicate Parseable(version: int, cmd: string) {
    WantsNumber(version, cmd) ==> Convertible(Request(version, cmd).value.1[1])
  }

  function Guarded(w: World, status: string): string {
    if w.fatal.Some? then "ERR:" + w.fatal.value else status
  }

  function Ended(r: Option<string>, done: string): string {
    if r.None? then done else "ERR:" + r.value
  }

  function Plain(c: Config, k: Keyword, w: World): (string, seq<Effect>, seq<Effect>)
    requires IsPlain(k)
  {
    match k
    case KVersion => (Guarded(w, "OK:" + c.version), [], [])
    case KDescription => ("OK:" + c.desc, [], [])
    case KHasLock => (if w.ready then "OK:Yes" else "OK:No", [], [])
    case KSignalStrength => (if w.ready then "OK:100" else "OK:20", [], [])
    case KLockTimeout => ("OK:12000", [], [OpenDev])
    case KHasTuner | KHasPicture => ("OK:No", [], [])
    case KSendBytes => ("ERR:Not supported", [], [])
    case KXon => ("OK", [], [SetXon(true)])
    case KXoff => ("OK", [], [SetXon(false)])
    case KIsOpen => (Guarded(w, if w.ready then "OK:Open" else "WARN:Not Open yet"), [], [])
    case KClose => ("OK:Terminating", [], [Terminate])
    case KFlowControl => ("OK:XON/XOFF", [], [])
    case KStart => (Ended(w.start, "OK:Started"), [StartEncoding], [])
    case _ => (Ended(w.stop, "OK:Stopped"), [StopEncoding], [])
  }

  function PlainAnswer(c: Config, version: int, serial: string, k: Keyword, w: World): Answer
    requires IsPlain(k)
  {
    var (status, before, after) := Plain(c, k, w);
    Answer(serial, status, before, after, version, version)
  }

  function PlainRecord(c: Config, version: int, serial: string, k: Keyword, w: World): seq<Event>
    requires IsPlain(k)
  {
    Record(PlainAnswer(c, version, serial, k, w))
  }

  /** The keywords tested first. */
  predicate IsQuery(k: Keyword) {
    k.KVersion? || k.KDescription? || k.KHasLock? || k.KSignalStrength? || k.KLockTimeout? || k.KHasTuner?
    || k.KHasPicture? || k.KSendBytes?
  }

  /** The commands with data; a new version is in force for its own answer. */
  function DataAnswer(version: int, serial: string, args: seq<string>): Answer
    requires |args| >= 2
  {
    match Keyed(args[0])
    case Some(KApiVersion) =>
      var v := ToInt32(Strtoul(args[1]));
      Answer(serial, "OK:API Version " + ToString(v), [], [], v, v)
    case Some(KBlockSize) => Answer(serial, "OK", [SetBlockSize(ToUint32(Strtoul(args[1])))], [], version, version)
    case Some(KTuneChannel) => Answer(serial, "ERR:Not supported", [], [], version, version)
    case _ => Answer(serial, "ERR:Unrecognized command: '" + args[0] + "'", [], [], version, version)
  }

  function Malformed(form: string, cmd: string): string {
    "ERR:Malformed message. Expecting " + form + ", but received \"" + cmd + "\""
  }

  const WITH_SERIAL := "<serial>:command<:optional data>"
  const WITH_VALUE := "<serial>:command:<data>"

  /** The answer to each command. */
  function Respond(c: Config, version: int, cmd: string, w: World): Answer
    requires Parseable(version, cmd)
  {
    if IsNegotiation(cmd) then
      Answer("", Guarded(w, "OK:" + ToString(MAX_API_VERSION)), [], [], version,
             if w.fatal.Some? then version else MAX_API_VERSION)
    else
      var r := Request(version, cmd);
      if r.None? then Answer("-1", Malformed(WITH_SERIAL, cmd), [], [], version, version)
      else
        var (serial, args) := r.value;
        var k := Keyed(args[0]);
        if k.Some? && IsPlain(k.value) then PlainAnswer(c, version, serial, k.value, w)
        else if |args| < 2 then Answer(serial, Malformed(WITH_VALUE, cmd), [], [], version, version)
        else DataAnswer(version, serial, args)
  }

  function Dids(es: seq<Effect>): seq<Event> {
    if es == [] then [] else [Did(es[0])] + Dids(es[1..])
  }

  /** The events of one command. */
  function Record(a: Answer): seq<Event> {
    Dids(a.before) + [Sent(Frame(a.framing, a.serial, a.status))] + Dids(a.after)
  }

  /** The shapes of a record. */
  lemma {:induction false} RecordOf(a: Answer)
    ensures var sent := Sent(Frame(a.framing, a.serial, a.status));
      && (a.before == [] && a.after == [] ==> Record(a) == [sent])
      && (a.before == [] && |a.after| == 1 ==> Record(a) == [sent, Did(a.after[0])])
      && (|a.before| == 1 && a.after == [] ==> Record(a) == [Did(a.before[0]), sent])
  {
    hide Frame;
    if |a.after| == 1 {
      assert Dids(a.after) == [Did(a.after[0])] + Dids([]);
    }
    if |a.before| == 1 {
      assert Dids(a.before) == [Did(a.before[0])] + Dids([]);
    }
  }

  // ---------------------------------------------------------------- the command parser

  class Parser {
    const config: Config
    var apiVersion: int      // m_api_version
    var trace: seq<Event>

    constructor (config: Config)
      ensures this.config == config && apiVersion == 1 && trace == []
    {
      this.config := config;
      apiVersion := 1;
      trace := [];
    }

    /** Commands::send_status, MythTV.cpp:234-257; the write is taken to write everything. */
    method SendStatus(serial: string, status: string)
      modifies this`trace
      ensures trace == old(trace) + [Sent(Frame(apiVersion, serial, status))]
    {
      var buf;
      if apiVersion > 1 {
        buf := serial + ":" + status + "\n";
      } else {
        buf := status + "\n";
      }
      trace := trace + [Sent(buf)];
    }

    method Do(e: Effect)
      modifies this`trace
      ensures trace == old(trace) + [Did(e)]
    {
      trace := trace + [Did(e)];
    }

    /** Commands::process_command, MythTV.cpp:259-437. */
    method ProcessCommand(cmd: string, w: World)
      requires Parseable(apiVersion, cmd)
      modifies this
      ensures var a := Respond(config, old(apiVersion), cmd, w);
        apiVersion == a.version && trace == old(trace) + Record(a)
    {
      hide Word, Guess, Keyed, Malformed, ToString, Strtoul, Plain, Split, Frame, DataAnswer, Record;
      RecordOf(Respond(config, apiVersion, cmd, w));
      if "APIVersion?" <= cmd {
        if w.fatal.Some? {
          SendStatus("", "ERR:" + w.fatal.value);
        } else {
          SendStatus("", "OK:" + ToString(MAX_API_VERSION));
          apiVersion := MAX_API_VERSION;
        }
        return;
      }
      var serial := "";
      var tokens := Split(cmd, ':');
      if apiVersion > 1 {
        if |tokens| < 2 {
          SendStatus("-1", Malformed(WITH_SERIAL, cmd));
          return;
        }
        serial := tokens[0];
        tokens := tokens[1..];
      }
      var handled := Queries(serial, tokens[0], w);
      if handled {
        return;
      }
      handled := Controls(serial, tokens[0], w);
      if handled {
        return;
      }
      if |tokens| < 2 {
        SendStatus(serial, Malformed(WITH_VALUE, cmd));
        return;
      }
      WithData(serial, tokens);
    }

    /** The first tests, MythTV.cpp:292-343. */
    method Queries(serial: string, token: string, w: World) returns (handled: bool)
      modifies this`trace
      ensures handled <==> Keyed(token).Some? && IsQuery(Keyed(token).value)
      ensures trace
        == old(trace) + if handled then PlainRecord(config, apiVersion, serial, Keyed(token).value, w) else []
    {
      hide Word, Guess, Keyed, Frame, Record;
      handled := true;
      if Starts(token, KVersion) {
        KeyedBy(token, KVersion);
        RecordOf(PlainAnswer(config, apiVersion, serial, KVersion, w));
        SendStatus(serial, if w.fatal.Some? then "ERR:" + w.fatal.value else "OK:" + config.version);
      } else if Starts(token, KDescription) {
        KeyedBy(token, KDescription);
        RecordOf(PlainAnswer(config, apiVersion, serial, KDescription, w));
        SendStatus(serial, "OK:" + config.desc);
      } else if Starts(token, KHasLock) {
        KeyedBy(token, KHasLock);
        RecordOf(PlainAnswer(config, apiVersion, serial, KHasLock, w));
        SendStatus(serial, if w.ready then "OK:Yes" else "OK:No");
      } else if Starts(token, KSignalStrength) {
        KeyedBy(token, KSignalStrength);
        RecordOf(PlainAnswer(config, apiVersion, serial, KSignalStrength, w));
        SendStatus(serial, if w.ready then "OK:100" else "OK:20");
      } else if Starts(token, KLockTimeout) {
        KeyedBy(token, KLockTimeout);
        RecordOf(PlainAnswer(config, apiVersion, serial, KLockTimeout, w));
        SendStatus(serial, "OK:12000");
        Do(OpenDev);
      } else if Starts(token, KHasTuner) {
        KeyedBy(token, KHasTuner);
        RecordOf(PlainAnswer(config, apiVersion, serial, KHasTuner, w));
        SendStatus(serial, "OK:No");
      } else if Starts(token, KHasPicture) {
        KeyedBy(token, KHasPicture);
        RecordOf(PlainAnswer(config, apiVersion, serial, KHasPicture, w));
        SendStatus(serial, "OK:No");
      } else if Starts(token, KSendBytes) {
        KeyedBy(token, KSendBytes);
        RecordOf(PlainAnswer(config, apiVersion, serial, KSendBytes, w));
        SendStatus(serial, "ERR:Not supported");
      } else {
        handled := false;
      }
    }

    /** The other tests that need no data, MythTV.cpp:344-404. */
    method Controls(serial: string, token: string, w: World) returns (handled: bool)
      requires Keyed(token).Some? ==> !IsQuery(Keyed(token).value)
      modifies this`trace
      ensures handled <==> Keyed(token).Some? && IsPlain(Keyed(token).value)
      ensures trace
        == old(trace) + if handled then PlainRecord(config, apiVersion, serial, Keyed(token).value, w) else []
    {
      hide Word, Guess, Keyed, Frame, Record;
      handled := true;
      if Starts(token, KXon) {
        KeyedBy(token, KXon);
        RecordOf(PlainAnswer(config, apiVersion, serial, KXon, w));
        SendStatus(serial, "OK");
        Do(SetXon(true));
      } else if Starts(token, KXoff) {
        KeyedBy(token, KXoff);
        RecordOf(PlainAnswer(config, apiVersion, serial, KXoff, w));
        SendStatus(serial, "OK");
        Do(SetXon(false));
      } else if Starts(token, KIsOpen) {
        KeyedBy(token, KIsOpen);
        RecordOf(PlainAnswer(config, apiVersion, serial, KIsOpen, w));
        SendStatus(serial,
                   if w.fatal.Some? then "ERR:" + w.fatal.value
                   else if w.ready then "OK:Open" else "WARN:Not Open yet");
      } else if Starts(token, KClose) {
        KeyedBy(token, KClose);
        RecordOf(PlainAnswer(config, apiVersion, serial, KClose, w));
        SendStatus(serial, "OK:Terminating");
        Do(Terminate);
      } else if Starts(token, KFlowControl) {
        KeyedBy(token, KFlowControl);
        RecordOf(PlainAnswer(config, apiVersion, serial, KFlowControl, w));
        SendStatus(serial, "OK:XON/XOFF");
      } else if Starts(token, KStart) {
        KeyedBy(token, KStart);
        RecordOf(PlainAnswer(config, apiVersion, serial, KStart, w));
        Do(StartEncoding);
        SendStatus(serial, if w.start.None? then "OK:Started" else "ERR:" + w.start.value);
      } else if Starts(token, KStop) {
        KeyedBy(token, KStop);
        RecordOf(PlainAnswer(config, apiVersion, serial, KStop, w));
        Do(StopEncoding);
        SendStatus(serial, if w.stop.None? then "OK:Stopped" else "ERR:" + w.stop.value);
      } else {
        handled := false;
      }
    }

    /** The commands with data, MythTV.cpp:415-434. */
    method WithData(serial: string, tokens: seq<string>)
      requires |tokens| >= 2 && (Keyed(tokens[0]).Some? ==> !IsPlain(Keyed(tokens[0]).value))
      requires Keyed(tokens[0]) in {Some(KApiVersion), Some(KBlockSize)} ==> Convertible(tokens[1])
      modifies this
      ensures var a := DataAnswer(old(apiVersion), serial, tokens);
        apiVersion == a.version && trace == old(trace) + Record(a)
    {
      hide Word, Guess, Keyed, ToString, Strtoul, Frame, Record;
      RecordOf(DataAnswer(apiVersion, serial, tokens));
      if Starts(tokens[0], KApiVersion) {
        KeyedBy(tokens[0], KApiVersion);
        apiVersion := ToInt32(Strtoul(tokens[1]));
        SendStatus(serial, "OK:API Version " + ToString(apiVersion));
      } else if Starts(tokens[0], KTuneChannel) {
        KeyedBy(tokens[0], KTuneChannel);
        SendStatus(serial, "ERR:Not supported");
      } else if Starts(tokens[0], KBlockSize) {
        KeyedBy(tokens[0], KBlockSize);
        Do(SetBlockSize(ToUint32(Strtoul(tokens[1]))));
        SendStatus(serial, "OK");
      } else {
        SendStatus(serial, "ERR:Unrecognized command: '" + tokens[0] + "'");
      }
    }

    /** Commands::Run, MythTV.cpp:439-498, for as many rounds as there are polls. */
    method Run(polls: seq<Poll>)
      requires AllHeardParseable(config, apiVersion, polls)
      modifies this
      ensures trace == old(trace) + Events(config, old(apiVersion), polls)
      ensures Lines(trace)
        == Lines(old(trace)) + Frames(Answers(config, old(apiVersion), Cmds(Heard(polls)), Worlds(Heard(polls))))
      ensures apiVersion == LastVersion(config, old(apiVersion), polls)
    {
      hide Respond, Parseable, Record, Frames, Lines, AllHeardParseable, Events, LastVersion;
      EventLines(old(trace), config, apiVersion, polls);
      var n := 0;
      while n < |polls|
        invariant 0 <= n <= |polls| && AllHeardParseable(config, apiVersion, polls[n..])
        invariant trace + Events(config, apiVersion, polls[n..]) == old(trace) + Events(config, old(apiVersion), polls)
        invariant LastVersion(config, apiVersion, polls[n..]) == LastVersion(config, old(apiVersion), polls)
      {
        assert polls[n..][0] == polls[n] && polls[n..][1..] == polls[n + 1..];
        if !polls[n].run || polls[n].hup {
          LoopEnds(config, apiVersion, polls[n..]);
          return;
        }
        if polls[n].nval {
          LoopEnds(config, apiVersion, polls[n..]);
          trace := trace + [Did(Fatal("poll error"))];
          return;
        }
        if polls[n].readable && polls[n].ret > 0 {
          LoopReads(config, apiVersion, polls[n..]);
          ProcessCommand(polls[n].cmd, polls[n].w);
        } else if polls[n].readable && polls[n].ret < 0 && polls[n].overflow {
          LoopEnds(config, apiVersion, polls[n..]);
          return;
        } else {
          LoopGoesOn(config, apiVersion, polls[n..]);
        }
        n := n + 1;
      }
      LoopEnds(config, apiVersion, polls[n..]);
    }
  }

  /** One round of the loop: m_run, the events and the result of poll, whether it failed with
      EOVERFLOW, and the line that can be read and what it meets. */
  datatype Poll = Poll(
    run: bool, hup: bool, nval: bool, readable: bool, ret: int, overflow: bool, cmd: string, w: World)

  predicate Ends(p: Poll) { !p.run || p.hup || p.nval || (p.readable && p.ret < 0 && p.overflow) }

  /** The rounds that read a command, up to the end of the loop. */
  function Heard(polls: seq<Poll>): seq<Poll>
  {
    if polls == [] || Ends(polls[0]) then []
    else (if polls[0].readable && polls[0].ret > 0 then [polls[0]] else []) + Heard(polls[1..])
  }

  /** An invalid descriptor is a fatal error; the other ends of the loop are silent. */
  function Farewell(polls: seq<Poll>): seq<Effect>
  {
    if polls == [] then []
    else if !Ends(polls[0]) then Farewell(polls[1..])
    else if polls[0].run && !polls[0].hup && polls[0].nval then [Fatal("poll error")]
    else []
  }

  function Cmds(heard: seq<Poll>): (r: seq<string>)
    ensures |r| == |heard|
  {
    if heard == [] then [] else [heard[0].cmd] + Cmds(heard[1..])
  }

  function Worlds(heard: seq<Poll>): (r: seq<World>)
    ensures |r| == |heard|
  {
    if heard == [] then [] else [heard[0].w] + Worlds(heard[1..])
  }

  predicate AllHeardParseable(c: Config, version: int, polls: seq<Poll>) {
    AllParseable(c, version, Cmds(Heard(polls)), Worlds(Heard(polls)))
  }

  /** What a run of the loop sends and does. */
  function Events(c: Config, version: int, polls: seq<Poll>): seq<Event>
    requires AllHeardParseable(c, version, polls)
  {
    Records(Answers(c, version, Cmds(Heard(polls)), Worlds(Heard(polls)))) + Dids(Farewell(polls))
  }

  /** The version that a run of the loop leaves. */
  function LastVersion(c: Config, version: int, polls: seq<Poll>): int
    requires AllHeardParseable(c, version, polls)
  {
    VersionAfter(c, version, Cmds(Heard(polls)), Worlds(Heard(polls)), |Heard(polls)|)
  }

  lemma {:induction false} EventLines(before: seq<Event>, c: Config, version: int, polls: seq<Poll>)
    requires AllHeardParseable(c, version, polls)
    ensures Lines(before + Events(c, version, polls))
      == Lines(before) + Frames(Answers(c, version, Cmds(Heard(polls)), Worlds(Heard(polls))))
  {
    hide Respond, Parseable, Record, Frames, Lines, AllParseable;
    var answers := Answers(c, version, Cmds(Heard(polls)), Worlds(Heard(polls)));
    TraceLines(before, answers, Farewell(polls));
    assert before + Events(c, version, polls) == before + Records(answers) + Dids(Farewell(polls));
  }

  lemma {:induction false} LoopEnds(c: Config, version: int, polls: seq<Poll>)
    requires AllHeardParseable(c, version, polls) && (polls == [] || Ends(polls[0]))
    ensures Events(c, version, polls) ==
      if polls != [] && polls[0].run && !polls[0].hup && polls[0].nval then [Did(Fatal("poll error"))] else []
    ensures LastVersion(c, version, polls) == version
  {
    assert Dids([Fatal("poll error")]) == [Did(Fatal("poll error"))] + Dids([]);
  }

  lemma {:induction false} LoopGoesOn(c: Config, version: int, polls: seq<Poll>)
    requires AllHeardParseable(c, version, polls) && polls != [] && !Ends(polls[0])
    requires !(polls[0].readable && polls[0].ret > 0)
    ensures AllHeardParseable(c, version, polls[1..])
    ensures Events(c, version, polls) == Events(c, version, polls[1..])
    ensures LastVersion(c, version, polls) == LastVersion(c, version, polls[1..])
  {
    assert Heard(polls) == Heard(polls[1..]) && Farewell(polls) == Farewell(polls[1..]);
  }

  lemma {:induction false} LoopReads(c: Config, version: int, polls: seq<Poll>)
    requires AllHeardParseable(c, version, polls) && polls != [] && !Ends(polls[0])
    requires polls[0].readable && polls[0].ret > 0
    ensures Parseable(version, polls[0].cmd)
    ensures var a := Respond(c, version, polls[0].cmd, polls[0].w);
      && AllHeardParseable(c, a.version, polls[1..])
      && Events(c, version, polls) == Record(a) + Events(c, a.version, polls[1..])
      && LastVersion(c, version, polls) == LastVersion(c, a.version, polls[1..])
  {
    hide Respond, Parseable, Record, Answers;
    var p, rest := polls[0], Heard(polls[1..]);
    assert Heard(polls) == [p] + rest && Farewell(polls) == Farewell(polls[1..]);
    HeardFirst(p, rest);
    FirstAnswer(c, version, [p.cmd] + Cmds(rest), [p.w] + Worlds(rest));
    VersionLater(c, version, [p.cmd] + Cmds(rest), [p.w] + Worlds(rest), |rest| + 1);
    assert ([p.cmd] + Cmds(rest))[1..] == Cmds(rest) && ([p.w] + Worlds(rest))[1..] == Worlds(rest);
  }

  lemma {:induction false} HeardFirst(p: Poll, rest: seq<Poll>)
    ensures Cmds([p] + rest) == [p.cmd] + Cmds(rest) && Worlds([p] + rest) == [p.w] + Worlds(rest)
  {
    assert ([p] + rest)[1..] == rest;
  }

  // ---------------------------------------------------------------- whole sessions

  predicate AllParseable(c: Config, version: int, cmds: seq<string>, ws: seq<World>)
    requires |ws| == |cmds|
    decreases |cmds|
  {
    cmds != [] ==>
      Parseable(version, cmds[0]) && AllParseable(c, Respond(c, version, cmds[0], ws[0]).version, cmds[1..], ws[1..])
  }

  /** The answers to a sequence of commands, each under the version its predecessors left. */
  function Answers(c: Config, version: int, cmds: seq<string>, ws: seq<World>): (r: seq<Answer>)
    requires |ws| == |cmds| && AllParseable(c, version, cmds, ws)
    ensures |r| == |cmds|
    decreases |cmds|
  {
    if cmds == [] then []
    else
      var a := Respond(c, version, cmds[0], ws[0]);
      [a] + Answers(c, a.version, cmds[1..], ws[1..])
  }

  function Records(answers: seq<Answer>): seq<Event> {
    if answers == [] then [] else Record(answers[0]) + Records(answers[1..])
  }

  lemma {:induction false} FirstAnswer(c: Config, version: int, cmds: seq<string>, ws: seq<World>)
    requires cmds != [] && |ws| == |cmds| && AllParseable(c, version, cmds, ws)
    ensures Parseable(version, cmds[0])
    ensures var a := Respond(c, version, cmds[0], ws[0]);
      && AllParseable(c, a.version, cmds[1..], ws[1..])
      && Records(Answers(c, version, cmds, ws)) == Record(a) + Records(Answers(c, a.version, cmds[1..], ws[1..]))
  {
    hide Respond, Parseable, Record;
    var a := Respond(c, version, cmds[0], ws[0]);
    assert ([a] + Answers(c, a.version, cmds[1..], ws[1..]))[1..] == Answers(c, a.version, cmds[1..], ws[1..]);
  }

  /** The status lines among the events. */
  function Lines(es: seq<Event>): seq<string> {
    if es == [] then [] else (if es[0].Sent? then [es[0].line] else []) + Lines(es[1..])
  }

  lemma {:induction false} LinesAppend(a: seq<Event>, b: seq<Event>)
    ensures Lines(a + b) == Lines(a) + Lines(b)
  {
    if a == [] {
      assert a + b == b;
    } else {
      assert (a + b)[1..] == a[1..] + b;
      LinesAppend(a[1..], b);
    }
  }

  lemma {:induction false} NoLines(es: seq<Effect>)
    ensures Lines(Dids(es)) == []
  {
    if es == [] {
    } else {
      assert ([Did(es[0])] + Dids(es[1..]))[1..] == Dids(es[1..]);
      NoLines(es[1..]);
    }
  }

  lemma {:induction false} OneLineEach(a: Answer)
    ensures Lines(Record(a)) == [Frame(a.framing, a.serial, a.status)]
  {
    var line := Sent(Frame(a.framing, a.serial, a.status));
    LinesAppend(Dids(a.before) + [line], Dids(a.after));
    LinesAppend(Dids(a.before), [line]);
    NoLines(a.before);
    NoLines(a.after);
  }

  function Frames(answers: seq<Answer>): (r: seq<string>)
    ensures |r| == |answers|
  {
    if answers == [] then []
    else [Frame(answers[0].framing, answers[0].serial, answers[0].status)] + Frames(answers[1..])
  }

  /** Exactly one status is written for each command, in order. */
  lemma {:induction false} OneReplyPerCommand(answers: seq<Answer>)
    ensures Lines(Records(answers)) == Frames(answers)
  {
    hide Record, Frame;
    if answers == [] {
    } else {
      OneLineEach(answers[0]);
      LinesAppend(Record(answers[0]), Records(answers[1..]));
      OneReplyPerCommand(answers[1..]);
    }
  }

  lemma {:induction false} TraceLines(before: seq<Event>, answers: seq<Answer>, bye: seq<Effect>)
    ensures Lines(before + Records(answers) + Dids(bye)) == Lines(before) + Frames(answers)
  {
    LinesAppend(before + Records(answers), Dids(bye));
    LinesAppend(before, Records(answers));
    OneReplyPerCommand(answers);
    NoLines(bye);
  }

  /** The version after `n` commands. */
  function VersionAfter(c: Config, version: int, cmds: seq<string>, ws: seq<World>, n: nat): int
    requires |ws| == |cmds| && AllParseable(c, version, cmds, ws) && n <= |cmds|
  {
    if n == 0 then version else Answers(c, version, cmds, ws)[n - 1].version
  }

  lemma {:induction false} VersionLater(c: Config, version: int, cmds: seq<string>, ws: seq<World>, i: nat)
    requires |ws| == |cmds| && AllParseable(c, version, cmds, ws) && 0 < i <= |cmds|
    ensures VersionAfter(c, version, cmds, ws, i)
      == VersionAfter(c, Respond(c, version, cmds[0], ws[0]).version, cmds[1..], ws[1..], i - 1)
  {
    hide Respond, Parseable;
  }

  /** Each command is answered under the version that its predecessors negotiated. */
  lemma {:induction false} AnswerAt(c: Config, version: int, cmds: seq<string>, ws: seq<World>, i: nat)
    requires |ws| == |cmds| && AllParseable(c, version, cmds, ws) && i < |cmds|
    ensures var v := VersionAfter(c, version, cmds, ws, i);
      Parseable(v, cmds[i]) && Answers(c, version, cmds, ws)[i] == Respond(c, v, cmds[i], ws[i])
    decreases |cmds|
  {
    hide Respond, Parseable;
    if i == 0 {
    } else {
      var a := Respond(c, version, cmds[0], ws[0]);
      AnswerAt(c, a.version, cmds[1..], ws[1..], i - 1);
    }
  }

  predicate SetsVersion(version: int, cmd: string)
  {
    var r := Request(version, cmd);
    !IsNegotiation(cmd) && r.Some? && |r.value.1| >= 2 && Keyed(r.value.1[0]) == Some(KApiVersion)
  }

  /** Version negotiation: APIVersion? is answered in the old framing and then sets version 2 unless
      there is a fatal error; APIVersion:N is answered in the framing that it sets; nothing else
      changes the version. */
  lemma {:induction false} Negotiation(c: Config, version: int, cmd: string, w: World)
    requires Parseable(version, cmd)
    ensures var a := Respond(c, version, cmd, w);
      && (a.framing == if SetsVersion(version, cmd) then a.version else version)
      && (a.version != version ==> SetsVersion(version, cmd) || (IsNegotiation(cmd) && w.fatal.None? && a.version == 2))
      && (IsNegotiation(cmd) && w.fatal.None? ==> a.version == 2)
  {
    hide Keyed, Plain, Malformed, ToString, Strtoul, Split, ToInt32;
  }

  /** The serial number of an answer is the text of the command before its first colon; it is empty
      under version 1 and for APIVersion?, and "-1" for a message without a colon. */
  lemma {:induction false} SerialIsEchoed(c: Config, version: int, cmd: string, w: World)
    requires Parseable(version, cmd)
    ensures var a := Respond(c, version, cmd, w); var i := Find(cmd, ':');
      && ':' !in a.serial
      && a.serial == (if IsNegotiation(cmd) || version <= 1 then "" else if i == |cmd| then "-1" else cmd[..i])
  {
    hide Keyed, PlainAnswer, DataAnswer, Malformed, ToString, Split, IsNegotiation;
    var i := Find(cmd, ':');
    SplitHead(cmd);
    var r := Request(version, cmd);
    if r.Some? {
      var (serial, args) := r.value;
      var k := Keyed(args[0]);
      if k.Some? && IsPlain(k.value) {
        PlainSerial(c, version, serial, k.value, w);
      } else if |args| >= 2 {
        DataSerial(version, serial, args);
      }
    }
  }

  lemma {:induction false} SplitHead(cmd: string)
    ensures var i := Find(cmd, ':'); var tokens := Split(cmd, ':');
      tokens[0] == cmd[..i] && (|tokens| == 1 <==> i == |cmd|)
  {
    assert cmd[..|cmd|] == cmd;
  }

  lemma {:induction false} PlainSerial(c: Config, version: int, serial: string, k: Keyword, w: World)
    requires IsPlain(k)
    ensures PlainAnswer(c, version, serial, k, w).serial == serial
  {
    hide Plain;
  }

  lemma {:induction false} DataSerial(version: int, serial: string, args: seq<string>)
    requires |args| >= 2
    ensures DataAnswer(version, serial, args).serial == serial
  {
    hide Keyed, ToString, Strtoul, ToInt32;
  }

  // ---------------------------------------------------------------- one line

  predicate Flat(s: string) { '\n' !in s }

  lemma {:induction false} FlatAppend(a: string, b: string)
    ensures Flat(a + b) <==> Flat(a) && Flat(b)
  {
    assert forall i | 0 <= i < |a| :: (a + b)[i] == a[i];
    assert forall i | 0 <= i < |b| :: (a + b)[|a| + i] == b[i];
  }

  function OrEmpty(text: Option<string>): string { if text.Some? then text.value else "" }

  /** The text from elsewhere that the answer to a keyword carries: the fatal error, the version,
      the description, or the error of a start or of a stop. */
  function ForeignTo(c: Config, k: Option<Keyword>, w: World): string
  {
    match k
    case Some(KVersion) => if w.fatal.Some? then w.fatal.value else c.version
    case Some(KDescription) => c.desc
    case Some(KIsOpen) => OrEmpty(w.fatal)
    case Some(KStart) => OrEmpty(w.start)
    case Some(KStop) => OrEmpty(w.stop)
    case _ => ""
  }

  function Foreign(c: Config, version: int, cmd: string, w: World): string
  {
    if IsNegotiation(cmd) then OrEmpty(w.fatal)
    else
      var r := Request(version, cmd);
      if r.None? then "" else ForeignTo(c, Keyed(r.value.1[0]), w)
  }

  lemma {:induction false} DecimalIsFlat(n: int)
    ensures Flat(ToString(n))
  {
    var s := Decimal(if n < 0 then -n else n);
    assert forall i | 0 <= i < |s| :: IsDigit(s[i]);
  }

  lemma {:induction false} GuardedIsFlat(w: World, status: string)
    ensures Flat(Guarded(w, status)) <==> if w.fatal.Some? then Flat(w.fatal.value) else Flat(status)
  {
    if w.fatal.Some? {
      FlatAppend("ERR:", w.fatal.value);
    }
  }

  lemma {:induction false} EndedIsFlat(r: Option<string>, done: string)
    requires Flat(done)
    ensures Flat(Ended(r, done)) <==> Flat(OrEmpty(r))
  {
    if r.Some? {
      FlatAppend("ERR:", r.value);
    }
  }

  lemma {:induction false} PlainIsFlat(c: Config, k: Keyword, w: World)
    requires IsPlain(k)
    ensures Flat(Plain(c, k, w).0) <==> Flat(ForeignTo(c, Some(k), w))
  {
    hide Guarded, Ended, Flat;
    PlainTextsAreFlat();
    if k.KVersion? {
      FlatAppend("OK:", c.version);
      GuardedIsFlat(w, "OK:" + c.version);
    } else if k.KDescription? {
      FlatAppend("OK:", c.desc);
    } else if k.KIsOpen? {
      GuardedIsFlat(w, if w.ready then "OK:Open" else "WARN:Not Open yet");
    } else if k.KStart? {
      EndedIsFlat(w.start, "OK:Started");
    } else if k.KStop? {
      EndedIsFlat(w.stop, "OK:Stopped");
    }
  }

  lemma {:induction false} PlainTextsAreFlat()
    ensures Flat("") && Flat("OK:") && Flat("OK:Yes") && Flat("OK:No") && Flat("OK:100") && Flat("OK:20")
    ensures Flat("OK:12000") && Flat("ERR:Not supported") && Flat("OK") && Flat("OK:Terminating")
    ensures Flat("OK:XON/XOFF") && Flat("OK:Open") && Flat("WARN:Not Open yet")
    ensures Flat("OK:Started") && Flat("OK:Stopped")
  {
  }

  lemma {:induction false} DataIsFlat(version: int, serial: string, args: seq<string>)
    requires |args| >= 2 && Flat(args[0])
    ensures Flat(DataAnswer(version, serial, args).status)
  {
    hide Keyed, ToString, Strtoul, ToInt32, Flat;
    FixedTextsAreFlat();
    var number := ToString(ToInt32(Strtoul(args[1])));
    DecimalIsFlat(ToInt32(Strtoul(args[1])));
    FlatAppend("OK:API Version ", number);
    FlatAppend("ERR:Unrecognized command: '", args[0]);
    FlatAppend("ERR:Unrecognized command: '" + args[0], "'");
  }

  lemma {:induction false} FixedTextsAreFlat()
    ensures Flat("OK:API Version ") && Flat("ERR:Unrecognized command: '") && Flat("'")
    ensures Flat("OK") && Flat("ERR:Not supported")
  {
  }

  lemma {:induction false} TokensAreFlat(cmd: string)
    requires Flat(cmd)
    ensures forall p | p in Split(cmd, ':') :: Flat(p)
    decreases |cmd|
  {
    var i := Find(cmd, ':');
    assert cmd[..|cmd|] == cmd;
    if i == |cmd| {
    } else {
      TokensAreFlat(cmd[i + 1..]);
    }
  }

  lemma {:induction false} MalformedIsFlat(form: string, cmd: string)
    requires Flat(form) && Flat(cmd)
    ensures Flat(Malformed(form, cmd))
  {
  }

  lemma {:induction false} NegotiationIsFlat(w: World)
    ensures Flat(Guarded(w, "OK:" + ToString(MAX_API_VERSION))) <==> Flat(OrEmpty(w.fatal))
  {
    DecimalIsFlat(MAX_API_VERSION);
    FlatAppend("OK:", ToString(MAX_API_VERSION));
    GuardedIsFlat(w, "OK:" + ToString(MAX_API_VERSION));
  }

  /** For a command that is one line, the status has a newline exactly if the text that it carries
      from elsewhere has one. */
  lemma {:induction false} StatusIsFlat(c: Config, version: int, cmd: string, w: World)
    requires Parseable(version, cmd) && Flat(cmd)
    ensures Flat(Respond(c, version, cmd, w).status) <==> Flat(Foreign(c, version, cmd, w))
  {
    hide Keyed, Plain, DataAnswer, Split, Malformed, ToString, IsNegotiation, Guarded, Parseable, ForeignTo;
    TokensAreFlat(cmd);
    MalformedIsFlat(WITH_SERIAL, cmd);
    MalformedIsFlat(WITH_VALUE, cmd);
    NegotiationIsFlat(w);
    var r := Request(version, cmd);
    if r.Some? {
      var (serial, args) := r.value;
      assert args[0] in Split(cmd, ':');
      var k := Keyed(args[0]);
      NothingForeign(c, k, w);
      if k.Some? && IsPlain(k.value) {
        PlainIsFlat(c, k.value, w);
      } else if |args| >= 2 {
        DataIsFlat(version, serial, args);
      }
    }
  }

  lemma {:induction false} NothingForeign(c: Config, k: Option<Keyword>, w: World)
    ensures k.None? || !IsPlain(k.value) ==> ForeignTo(c, k, w) == ""
  {
  }

  lemma {:induction false} SerialIsFlat(c: Config, version: int, cmd: string, w: World)
    requires Parseable(version, cmd) && Flat(cmd)
    ensures Flat(Respond(c, version, cmd, w).serial)
  {
    hide Respond;
    SerialIsEchoed(c, version, cmd, w);
  }

  /** The reply to a command is a single line if and only if the text that it carries from
      elsewhere has no newline. */
  lemma {:induction false} ReplyIsOneLine(c: Config, version: int, cmd: string, w: World)
    requires Parseable(version, cmd) && Flat(cmd)
    ensures var a := Respond(c, version, cmd, w);
      Newlines(Frame(a.framing, a.serial, a.status)) == 1 <==> Flat(Foreign(c, version, cmd, w))
  {
    hide Respond, Newlines, Frame, Foreign, Parseable;
    var a := Respond(c, version, cmd, w);
    OneLine(a.framing, a.serial, a.status);
    SerialIsFlat(c, version, cmd, w);
    StatusIsFlat(c, version, cmd, w);
  }

  lemma {:induction false} VersionIsKeyed()
    ensures Keyed("Version?") == Some(KVersion)
  {
    assert Starts("Version?", KVersion);
    KeyedBy("Version?", KVersion);
  }

  /** The texts of USBif.cpp end in a newline, so a failed open makes later answers two lines. */
  lemma {:induction false} FatalTextBreaksTheLine(c: Config, w: World)
    requires w.fatal == Some("Failed to find any usb devices: -1\n")
    ensures Parseable(1, "Version?")
    ensures var a := Respond(c, 1, "Version?", w); Newlines(Frame(a.framing, a.serial, a.status)) != 1
  {
    hide Respond, Newlines, Frame, Keyed, Word, Guess;
    VersionIsKeyed();
    FindNone("Version?", ':');
    assert Split("Version?", ':') == ["Version?"];
    ReplyIsOneLine(c, 1, "Version?", w);
    assert w.fatal.value[|w.fatal.value| - 1] == '\n';
  }

  // ---------------------------------------------------------------- what the peer reads

  /** A frame without its newline. */
  function Shown(a: Answer): string { if a.framing > 1 then a.serial + ":" + a.status else a.status }

  function AllShown(answers: seq<Answer>): (r: seq<string>)
    ensures |r| == |answers|
  {
    if answers == [] then [] else [Shown(answers[0])] + AllShown(answers[1..])
  }

  /** What is written to the descriptor in the end. */
  function Stream(chunks: seq<string>): string {
    if chunks == [] then "" else chunks[0] + Stream(chunks[1..])
  }

  lemma {:induction false} StreamIsJoined(answers: seq<Answer>)
    ensures Stream(Frames(answers)) == Join(AllShown(answers) + [""], '\n')
  {
    hide Frame, Shown;
    if answers == [] {
    } else {
      var a := answers[0];
      StreamIsJoined(answers[1..]);
      FrameIsShown(a);
      assert (AllShown(answers) + [""])[1..] == AllShown(answers[1..]) + [""];
      assert Frames(answers)[1..] == Frames(answers[1..]);
      assert Shown(a) + "\n" == Shown(a) + ['\n'];
    }
  }

  lemma {:induction false} FrameIsShown(a: Answer)
    ensures Frame(a.framing, a.serial, a.status) == Shown(a) + "\n"
  {
  }

  lemma {:induction false} PiecesAreNewlines(s: string)
    ensures |Split(s, '\n')| == Newlines(s) + 1
    decreases |s|
  {
    var i := Find(s, '\n');
    NoNewline(s[..i]);
    NewlinesAppend(s[..i], s[i..]);
    assert s[..i] + s[i..] == s;
    if i == |s| {
    } else {
      assert s[i..][1..] == s[i + 1..];
      PiecesAreNewlines(s[i + 1..]);
    }
  }

  predicate AllOneLine(answers: seq<Answer>) {
    forall i | 0 <= i < |answers| :: Newlines(Frame(answers[i].framing, answers[i].serial, answers[i].status)) == 1
  }

  /** There are at least as many lines as answers, and more exactly if some answer is not one line. */
  lemma {:induction false} LinesInStream(answers: seq<Answer>)
    ensures Newlines(Stream(Frames(answers))) >= |answers|
    ensures Newlines(Stream(Frames(answers))) == |answers| <==> AllOneLine(answers)
  {
    hide Frame, Newlines;
    if answers == [] {
      assert Newlines("") == 0 by {
        NoNewline("");
      }
    } else {
      var a, rest := answers[0], answers[1..];
      LinesInStream(rest);
      assert Frames(answers)[1..] == Frames(rest);
      NewlinesAppend(Frames(answers)[0], Stream(Frames(rest)));
      FrameHasNewline(a);
      assert forall i | 0 < i < |answers| :: answers[i] == rest[i - 1];
      assert forall i | 0 <= i < |rest| :: rest[i] == answers[i + 1];
    }
  }

  lemma {:induction false} FrameHasNewline(a: Answer)
    ensures Newlines(Frame(a.framing, a.serial, a.status)) >= 1
  {
    FrameIsShown(a);
    NewlinesAppend(Shown(a), "\n");
    assert Newlines("\n") == 1;
  }

  lemma {:induction false} OneLineIsFlat(a: Answer)
    requires Newlines(Frame(a.framing, a.serial, a.status)) == 1
    ensures Flat(Shown(a))
  {
    OneLine(a.framing, a.serial, a.status);
  }

  lemma {:induction false} ShownAt(answers: seq<Answer>, i: nat)
    requires i < |answers|
    ensures AllShown(answers)[i] == Shown(answers[i])
  {
    hide Shown;
    if i == 0 {
    } else {
      ShownAt(answers[1..], i - 1);
    }
  }

  /** Nothing that the session's answers carry from elsewhere has a newline. */
  predicate AllFlat(c: Config, version: int, cmds: seq<string>, ws: seq<World>)
    requires |ws| == |cmds| && AllParseable(c, version, cmds, ws)
  {
    forall i | 0 <= i < |cmds| :: Flat(Foreign(c, VersionAfter(c, version, cmds, ws, i), cmds[i], ws[i]))
  }

  lemma {:induction false} FlatSession(c: Config, version: int, cmds: seq<string>, ws: seq<World>)
    requires |ws| == |cmds| && AllParseable(c, version, cmds, ws) && forall x | x in cmds :: Flat(x)
    ensures AllOneLine(Answers(c, version, cmds, ws)) <==> AllFlat(c, version, cmds, ws)
  {
    hide Respond, Parseable, Frame, Newlines, Foreign, Answers, Flat;
    var answers := Answers(c, version, cmds, ws);
    forall i | 0 <= i < |cmds|
      ensures Newlines(Frame(answers[i].framing, answers[i].serial, answers[i].status)) == 1
        <==> Flat(Foreign(c, VersionAfter(c, version, cmds, ws, i), cmds[i], ws[i]))
    {
      AnswerAt(c, version, cmds, ws, i);
      assert cmds[i] in cmds;
      ReplyIsOneLine(c, VersionAfter(c, version, cmds, ws, i), cmds[i], ws[i]);
    }
  }

  /** Reply discipline for any session: what the peer reads, cut at the newlines, is one piece for
      each command if and only if no answer carries a text with a newline; the pieces are then the
      answers in order, from which the peer reads back serial number and status by cutting at the
      first colon exactly when the version the answer was framed with exceeds 1. */
  lemma {:induction false} ReplyDiscipline(c: Config, version: int, cmds: seq<string>, ws: seq<World>)
    requires |ws| == |cmds| && AllParseable(c, version, cmds, ws) && forall x | x in cmds :: Flat(x)
    ensures var answers := Answers(c, version, cmds, ws); var pieces := Split(Stream(Frames(answers)), '\n');
      && (|pieces| == |cmds| + 1 <==> AllFlat(c, version, cmds, ws))
      && (AllFlat(c, version, cmds, ws) ==>
            pieces[|cmds|] == "" && forall i | 0 <= i < |cmds| :: ReadBack(answers[i], pieces[i]))
  {
    hide Respond, Parseable, Stream, Frames, Shown, AllFlat, Flat, AllOneLine, ReadBack, Answers;
    var answers := Answers(c, version, cmds, ws);
    PiecesAreNewlines(Stream(Frames(answers)));
    LinesInStream(answers);
    FlatSession(c, version, cmds, ws);
    if AllFlat(c, version, cmds, ws) {
      StreamIsJoined(answers);
      ShownAreFlat(answers);
      SplitUndoesJoin(AllShown(answers) + [""], '\n');
      forall i | 0 <= i < |cmds| ensures ReadBack(answers[i], AllShown(answers)[i]) {
        AnswerAt(c, version, cmds, ws, i);
        SerialIsEchoed(c, VersionAfter(c, version, cmds, ws, i), cmds[i], ws[i]);
        ShownAt(answers, i);
        ShownIsReadBack(answers[i]);
      }
    }
  }

  lemma {:induction false} ShownAreFlat(answers: seq<Answer>)
    requires AllOneLine(answers)
    ensures forall p | p in AllShown(answers) + [""] :: '\n' !in p
  {
    hide Frame, Newlines, Shown;
    forall p | p in AllShown(answers) ensures Flat(p) {
      var i :| 0 <= i < |answers| && AllShown(answers)[i] == p;
      ShownAt(answers, i);
      OneLineIsFlat(answers[i]);
    }
  }

  /** The peer reads the serial number, if there is one, and the status. */
  predicate ReadBack(a: Answer, piece: string) {
    Unframe(a.framing, piece + "\n") == Some((if a.framing > 1 then a.serial else "", a.status))
  }

  lemma {:induction false} ShownIsReadBack(a: Answer)
    requires ':' !in a.serial
    ensures ReadBack(a, Shown(a))
  {
    FrameIsShown(a);
    UnframeFrame(a.framing, a.serial, a.status);
  }
}
