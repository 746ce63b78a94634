/**
  What a session comes to, said in terms of the texts of its commands: which effects they have on
  the recorder, what they are answered, and when the command loop ends.
*/
module CommandTheorems {
  import opened Option
  import opened CNumber
  import opened Text
  import opened Protocol
  import opened Commands

  // ---------------------------------------------------------------- the text of a command

  /** The text behind the first colon. */
  function Behind(s: string): Option<string> {
    var i := Find(s, ':');
    if i == |s| then None else Some(s[i + 1..])
  }

  /** The text up to the first colon. */
  function UpTo(s: string): string { s[..Find(s, ':')] }

  /** A command without its serial number, which it has from version 2 on. */
  function Unserialled(version: int, cmd: string): Option<string> { if version <= 1 then Some(cmd) else Behind(cmd) }

  /** The first field of the command begins with `word`. */
  predicate Says(version: int, cmd: string, word: string) {
    var t := Unserialled(version, cmd);
    !("APIVersion?" <= cmd) && t.Some? && word <= UpTo(t.value)
  }

  /** The second field. */
  function Data(version: int, cmd: string): Option<string>
  {
    var t := Unserialled(version, cmd);
    if t.None? || Behind(t.value).None? then None else Some(UpTo(Behind(t.value).value))
  }

  lemma {:induction false} SplitTwo(s: string)
    ensures var parts := Split(s, ':'); var b := Behind(s);
      && parts[0] == UpTo(s)
      && (|parts| >= 2 <==> b.Some?)
      && (b.Some? ==> parts[1..] == Split(b.value, ':') && parts[1] == UpTo(b.value))
  {
    var i := Find(s, ':');
    assert s[..|s|] == s;
    if i < |s| {
      assert Split(s, ':') == [s[..i]] + Split(s[i + 1..], ':');
      var rest := s[i + 1..];
      assert rest[..|rest|] == rest;
    }
  }

  /** The tokens are the fields. */
  lemma {:induction false} RequestText(version: int, cmd: string)
    ensures var r := Request(version, cmd); var t := Unserialled(version, cmd);
      && (r.Some? <==> t.Some?)
      && (r.Some? ==>
            && r.value.1[0] == UpTo(t.value)
            && (|r.value.1| >= 2 <==> Data(version, cmd).Some?)
            && (|r.value.1| >= 2 ==> r.value.1[1] == Data(version, cmd).value))
  {
    hide Split, UpTo, Behind;
    SplitTwo(cmd);
    if Behind(cmd).Some? {
      SplitTwo(Behind(cmd).value);
    }
  }

  /** The keyword that the first field begins with. */
  function Spoken(version: int, cmd: string): Option<Keyword>
  {
    var t := Unserialled(version, cmd);
    if "APIVersion?" <= cmd || t.None? then None else Keyed(UpTo(t.value))
  }

  lemma {:induction false} SpokenIff(version: int, cmd: string, k: Keyword)
    ensures Spoken(version, cmd) == Some(k) <==> Says(version, cmd, Word(k))
  {
    hide Word, UpTo, Unserialled;
    var t := Unserialled(version, cmd);
    if t.Some? && Starts(UpTo(t.value), k) {
      KeyedBy(UpTo(t.value), k);
    }
  }

  /** The keywords are these texts. */
  lemma {:induction false} SpokenQuery(version: int, cmd: string)
    ensures Spoken(version, cmd) == Some(KVersion) <==> Says(version, cmd, "Version?")
    ensures Spoken(version, cmd) == Some(KDescription) <==> Says(version, cmd, "Description?")
    ensures Spoken(version, cmd) == Some(KHasLock) <==> Says(version, cmd, "HasLock?")
    ensures Spoken(version, cmd) == Some(KSignalStrength) <==> Says(version, cmd, "SignalStrengthPercent")
    ensures Spoken(version, cmd) == Some(KHasTuner) <==> Says(version, cmd, "HasTuner?")
    ensures Spoken(version, cmd) == Some(KHasPicture) <==> Says(version, cmd, "HasPictureAttributes?")
    ensures Spoken(version, cmd) == Some(KSendBytes) <==> Says(version, cmd, "SendBytes")
    ensures Spoken(version, cmd) == Some(KIsOpen) <==> Says(version, cmd, "IsOpen?")
    ensures Spoken(version, cmd) == Some(KFlowControl) <==> Says(version, cmd, "FlowControl?")
  {
    hide Spoken, Says;
    SpokenIff(version, cmd, KVersion);
    SpokenIff(version, cmd, KDescription);
    SpokenIff(version, cmd, KHasLock);
    SpokenIff(version, cmd, KSignalStrength);
    SpokenIff(version, cmd, KHasTuner);
    SpokenIff(version, cmd, KHasPicture);
    SpokenIff(version, cmd, KSendBytes);
    SpokenIff(version, cmd, KIsOpen);
    SpokenIff(version, cmd, KFlowControl);
  }

  lemma {:induction false} SpokenOrder(version: int, cmd: string)
    ensures Spoken(version, cmd) == Some(KLockTimeout) <==> Says(version, cmd, "LockTimeout")
    ensures Spoken(version, cmd) == Some(KXon) <==> Says(version, cmd, "XON")
    ensures Spoken(version, cmd) == Some(KXoff) <==> Says(version, cmd, "XOFF")
    ensures Spoken(version, cmd) == Some(KClose) <==> Says(version, cmd, "CloseRecorder")
    ensures Spoken(version, cmd) == Some(KStart) <==> Says(version, cmd, "StartStreaming")
    ensures Spoken(version, cmd) == Some(KStop) <==> Says(version, cmd, "StopStreaming")
    ensures Spoken(version, cmd) == Some(KApiVersion) <==> Says(version, cmd, "APIVersion")
    ensures Spoken(version, cmd) == Some(KTuneChannel) <==> Says(version, cmd, "TuneChannel")
    ensures Spoken(version, cmd) == Some(KBlockSize) <==> Says(version, cmd, "BlockSize")
  {
    hide Spoken, Says;
    SpokenIff(version, cmd, KLockTimeout);
    SpokenIff(version, cmd, KXon);
    SpokenIff(version, cmd, KXoff);
    SpokenIff(version, cmd, KClose);
    SpokenIff(version, cmd, KStart);
    SpokenIff(version, cmd, KStop);
    SpokenIff(version, cmd, KApiVersion);
    SpokenIff(version, cmd, KTuneChannel);
    SpokenIff(version, cmd, KBlockSize);
  }

  /** The answer by the keyword. */
  lemma {:induction false} AnswerBySpoken(c: Config, version: int, cmd: string, w: World)
    requires Parseable(version, cmd)
    ensures var a := Respond(c, version, cmd, w); var k := Spoken(version, cmd); var d := Data(version, cmd);
      if "APIVersion?" <= cmd then a.before == [] && a.after == []
      else if k.Some? && IsPlain(k.value) then
        (a.status, a.before, a.after) == Plain(c, k.value, w) && a.version == version
      else if d.Some? then a == DataAnswer(version, a.serial, [Named(version, cmd), d.value])
      else
        && a.before == [] && a.after == []
        && a.status == Malformed(if Unserialled(version, cmd).None? then WITH_SERIAL else WITH_VALUE, cmd)
        && (Unserialled(version, cmd).None? ==> a.serial == "-1")
    ensures Spoken(version, cmd).Some? ==> !("APIVersion?" <= cmd)
    ensures Data(version, cmd).Some? ==> Unserialled(version, cmd).Some?
  {
    hide Keyed, Strtoul, ToString, ToInt32, Malformed, UpTo, Parseable, Plain, Split, Behind;
    RequestText(version, cmd);
  }

  /** The first field, if there is one. */
  function Named(version: int, cmd: string): string {
    if Unserialled(version, cmd).None? then "" else UpTo(Unserialled(version, cmd).value)
  }

  // ---------------------------------------------------------------- what a command does

  /** The effects that a command asks for before it is answered. */
  function AskedBefore(version: int, cmd: string): seq<Effect>
  {
    if Says(version, cmd, "StartStreaming") then [StartEncoding]
    else if Says(version, cmd, "StopStreaming") then [StopEncoding]
    else if Says(version, cmd, "BlockSize") && Data(version, cmd).Some? then
      [SetBlockSize(Strtoul(Data(version, cmd).value) % 0x1_0000_0000)]
    else []
  }

  /** The effects that a command asks for and that follow its answer. */
  function AskedAfter(version: int, cmd: string): seq<Effect>
  {
    if Says(version, cmd, "XON") then [SetXon(true)]
    else if Says(version, cmd, "XOFF") then [SetXon(false)]
    else if Says(version, cmd, "LockTimeout") then [OpenDev]
    else if Says(version, cmd, "CloseRecorder") then [Terminate]
    else []
  }

  lemma {:induction false} AskedBySpoken(version: int, cmd: string)
    ensures AskedBefore(version, cmd) == (
      match Spoken(version, cmd)
      case Some(KStart) => [StartEncoding]
      case Some(KStop) => [StopEncoding]
      case Some(KBlockSize) =>
        if Data(version, cmd).Some? then [SetBlockSize(Strtoul(Data(version, cmd).value) % 0x1_0000_0000)] else []
      case _ => [])
    ensures AskedAfter(version, cmd) == (
      match Spoken(version, cmd)
      case Some(KXon) => [SetXon(true)]
      case Some(KXoff) => [SetXon(false)]
      case Some(KLockTimeout) => [OpenDev]
      case Some(KClose) => [Terminate]
      case _ => [])
  {
    hide Spoken, Says, Data, Strtoul;
    SpokenOrder(version, cmd);
  }

  /** A command does exactly what its text asks for: starts, stops and block sizes before its status,
      XON, XOFF, opens and terminations after it. */
  lemma {:induction false} DoesWhatIsAsked(c: Config, version: int, cmd: string, w: World)
    requires Parseable(version, cmd)
    ensures var a := Respond(c, version, cmd, w);
      && a.before == AskedBefore(version, cmd) && a.after == AskedAfter(version, cmd)
      && Record(a) == Dids(AskedBefore(version, cmd)) + [Sent(Frame(a.framing, a.serial, a.status))]
                      + Dids(AskedAfter(version, cmd))
  {
    hide Respond, Spoken, Data, Strtoul, Parseable, Keyed, ToString, ToInt32, AskedBefore, AskedAfter, Dids, Frame;
    AnswerBySpoken(c, version, cmd, w);
    AskedBySpoken(version, cmd);
    var d := Data(version, cmd);
    if d.Some? && !("APIVersion?" <= cmd) {
      DataDoes(version, Respond(c, version, cmd, w).serial, cmd, d.value);
    }
  }

  lemma {:induction false} DataDoes(version: int, serial: string, cmd: string, data: string)
    requires !("APIVersion?" <= cmd) && Unserialled(version, cmd).Some?
    ensures var a := DataAnswer(version, serial, [Named(version, cmd), data]);
      && a.after == []
      && (Spoken(version, cmd) == Some(KBlockSize) ==> a.before == [SetBlockSize(Strtoul(data) % 0x1_0000_0000)])
      && (Spoken(version, cmd) != Some(KBlockSize) ==> a.before == [])
  {
    hide Keyed, Strtoul, ToString, ToInt32;
  }

  /** Only APIVersion:N and BlockSize:N need a number that std::stoul can read. */
  lemma {:induction false} ParseableText(version: int, cmd: string)
    ensures Parseable(version, cmd) <==>
      ((Says(version, cmd, "APIVersion") || Says(version, cmd, "BlockSize")) && Data(version, cmd).Some?
       ==> Convertible(Data(version, cmd).value))
  {
    hide Keyed, UpTo, Split, Behind, Convertible, Says;
    RequestText(version, cmd);
    SpokenOrder(version, cmd);
  }

  // ---------------------------------------------------------------- what the peer is told

  function ErrOr(error: Option<string>, status: string): string {
    if error.Some? then "ERR:" + error.value else status
  }

  /** The answers to questions, by the text of the command. */
  lemma {:induction false} QuestionsAnswered(c: Config, version: int, cmd: string, w: World)
    requires Parseable(version, cmd)
    ensures var status := Respond(c, version, cmd, w).status;
      && ("APIVersion?" <= cmd ==> status == ErrOr(w.fatal, "OK:2"))
      && (Says(version, cmd, "Version?") ==> status == ErrOr(w.fatal, "OK:" + c.version))
      && (Says(version, cmd, "Description?") ==> status == "OK:" + c.desc)
      && (Says(version, cmd, "HasLock?") ==> status == (if w.ready then "OK:Yes" else "OK:No"))
      && (Says(version, cmd, "SignalStrengthPercent") ==> status == (if w.ready then "OK:100" else "OK:20"))
      && (Says(version, cmd, "HasTuner?") || Says(version, cmd, "HasPictureAttributes?") ==> status == "OK:No")
      && (Says(version, cmd, "SendBytes") ==> status == "ERR:Not supported")
      && (Says(version, cmd, "IsOpen?") ==>
            status == ErrOr(w.fatal, if w.ready then "OK:Open" else "WARN:Not Open yet"))
      && (Says(version, cmd, "FlowControl?") ==> status == "OK:XON/XOFF")
  {
    hide Respond, Spoken, Says, Data, DataAnswer, Parseable;
    AnswerBySpoken(c, version, cmd, w);
    SpokenQuery(version, cmd);
    if "APIVersion?" <= cmd {
      NegotiationTold(c, version, cmd, w);
    }
  }

  lemma {:induction false} NegotiationTold(c: Config, version: int, cmd: string, w: World)
    requires Parseable(version, cmd) && "APIVersion?" <= cmd
    ensures Respond(c, version, cmd, w).status == ErrOr(w.fatal, "OK:2")
  {
    hide Parseable;
    assert ToString(MAX_API_VERSION) == "2";
  }

  /** The answers to orders that need no data. */
  lemma {:induction false} OrdersAnswered(c: Config, version: int, cmd: string, w: World)
    requires Parseable(version, cmd)
    ensures var status := Respond(c, version, cmd, w).status;
      && (Says(version, cmd, "LockTimeout") ==> status == "OK:12000")
      && (Says(version, cmd, "XON") || Says(version, cmd, "XOFF") ==> status == "OK")
      && (Says(version, cmd, "CloseRecorder") ==> status == "OK:Terminating")
      && (Says(version, cmd, "StartStreaming") ==> status == ErrOr(w.start, "OK:Started"))
      && (Says(version, cmd, "StopStreaming") ==> status == ErrOr(w.stop, "OK:Stopped"))
  {
    hide Respond, Spoken, Says, Data, DataAnswer, Parseable;
    AnswerBySpoken(c, version, cmd, w);
    SpokenOrder(version, cmd);
  }

  const WORDS := [
    "Version?", "Description?", "HasLock?", "SignalStrengthPercent", "LockTimeout", "HasTuner?",
    "HasPictureAttributes?", "SendBytes", "XON", "XOFF", "IsOpen?", "CloseRecorder", "FlowControl?",
    "StartStreaming", "StopStreaming", "APIVersion", "TuneChannel", "BlockSize"]

  /** The answers to commands with data, and to those that make no sense. */
  lemma {:induction false} DataAnswered(c: Config, version: int, cmd: string, w: World)
    requires Parseable(version, cmd) && !("APIVersion?" <= cmd)
    ensures var a := Respond(c, version, cmd, w); var d := Data(version, cmd);
      var n := if d.Some? then Strtoul(d.value) % 0x1_0000_0000 else 0;
      var v := if n < 0x8000_0000 then n else n - 0x1_0000_0000;
      && (Says(version, cmd, "APIVersion") && d.Some? ==>
            a.status == "OK:API Version " + ToString(v) && a.version == v && a.framing == v)
      && (Says(version, cmd, "TuneChannel") && d.Some? ==> a.status == "ERR:Not supported")
      && (Says(version, cmd, "BlockSize") && d.Some? ==> a.status == "OK")
      && (d.Some? && (forall word | word in WORDS :: !Says(version, cmd, word)) ==>
            a.status == "ERR:Unrecognized command: '" + Named(version, cmd) + "'")
  {
    hide Respond, Spoken, Says, Strtoul, ToString, Malformed, Data, Parseable, Plain, DataAnswer;
    AnswerBySpoken(c, version, cmd, w);
    SpokenOrder(version, cmd);
    var d := Data(version, cmd);
    if d.Some? {
      DataTold(version, Respond(c, version, cmd, w).serial, cmd, d.value);
      if forall word | word in WORDS :: !Says(version, cmd, word) {
        NoWord(version, cmd);
      }
    }
  }

  lemma {:induction false} DataTold(version: int, serial: string, cmd: string, data: string)
    requires !("APIVersion?" <= cmd) && Unserialled(version, cmd).Some?
    ensures var a := DataAnswer(version, serial, [Named(version, cmd), data]);
      match Spoken(version, cmd)
      case Some(KApiVersion) =>
        a.version == a.framing == ToInt32(Strtoul(data)) && a.status == "OK:API Version " + ToString(a.version)
      case Some(KTuneChannel) => a.status == "ERR:Not supported"
      case Some(KBlockSize) => a.status == "OK"
      case _ => a.status == "ERR:Unrecognized command: '" + Named(version, cmd) + "'"
  {
    hide Keyed, Strtoul, ToString, ToInt32, UpTo;
  }

  lemma {:induction false} NoWord(version: int, cmd: string)
    requires forall word | word in WORDS :: !Says(version, cmd, word)
    ensures Spoken(version, cmd).None?
  {
    hide Spoken, Says;
    var k := Spoken(version, cmd);
    if k.Some? {
      SpokenIff(version, cmd, k.value);
      WordIsListed(k.value);
    }
  }

  lemma {:induction false} WordIsListed(k: Keyword)
    ensures Word(k) in WORDS
  {
    var i := PlaceOf(k);
    assert WORDS[i] == Word(k);
  }

  lemma {:induction false} PlaceOf(k: Keyword) returns (i: nat)
    ensures i < |WORDS| && WORDS[i] == Word(k) && (IsPlain(k) ==> i < 15)
  {
    i := match k
      case KVersion => 0
      case KDescription => 1
      case KHasLock => 2
      case KSignalStrength => 3
      case KLockTimeout => 4
      case KHasTuner => 5
      case KHasPicture => 6
      case KSendBytes => 7
      case KXon => 8
      case KXoff => 9
      case KIsOpen => 10
      case KClose => 11
      case KFlowControl => 12
      case KStart => 13
      case KStop => 14
      case KApiVersion => 15
      case KTuneChannel => 16
      case KBlockSize => 17;
  }

  /** Without the data that it needs a command is malformed, as is, from version 2 on, a command
      without a colon; the serial number of the latter is "-1". */
  lemma {:induction false} MalformedAnswered(c: Config, version: int, cmd: string, w: World)
    requires Parseable(version, cmd) && !("APIVersion?" <= cmd) && Data(version, cmd).None?
    requires forall word | word in WORDS[..15] :: !Says(version, cmd, word)
    ensures var a := Respond(c, version, cmd, w);
      if version > 1 && ':' !in cmd then
        && a.serial == "-1"
        && a.status == "ERR:Malformed message. Expecting " + "<serial>:command<:optional data>"
                       + ", but received \"" + cmd + "\""
      else
        a.status == "ERR:Malformed message. Expecting " + "<serial>:command:<data>"
                    + ", but received \"" + cmd + "\""
  {
    hide Respond, Spoken, Says, Data, Parseable, Plain, DataAnswer;
    AnswerBySpoken(c, version, cmd, w);
    NoPlainWord(version, cmd);
    BehindIff(cmd);
  }

  lemma {:induction false} BehindIff(s: string)
    ensures Behind(s).None? <==> ':' !in s
  {
    if ':' !in s {
      FindNone(s, ':');
    }
  }

  lemma {:induction false} NoPlainWord(version: int, cmd: string)
    requires forall word | word in WORDS[..15] :: !Says(version, cmd, word)
    ensures Spoken(version, cmd).Some? ==> !IsPlain(Spoken(version, cmd).value)
  {
    hide Spoken, Says;
    var k := Spoken(version, cmd);
    if k.Some? && IsPlain(k.value) {
      SpokenIff(version, cmd, k.value);
      PlainWordIsListed(k.value);
    }
  }

  lemma {:induction false} PlainWordIsListed(k: Keyword)
    requires IsPlain(k)
    ensures Word(k) in WORDS[..15]
  {
    var i := PlaceOf(k);
    assert WORDS[..15][i] == WORDS[i];
  }

  // ---------------------------------------------------------------- what a session does

  /** The effects among the events. */
  function Effects(es: seq<Event>): seq<Effect> {
    if es == [] then [] else (if es[0].Did? then [es[0].effect] else []) + Effects(es[1..])
  }

  /** The effects that the commands of a session ask for, in order. */
  function AllAsked(c: Config, version: int, cmds: seq<string>, ws: seq<World>): seq<Effect>
    requires |ws| == |cmds| && AllParseable(c, version, cmds, ws)
    decreases |cmds|
  {
    if cmds == [] then []
    else
      AskedBefore(version, cmds[0]) + AskedAfter(version, cmds[0])
      + AllAsked(c, Respond(c, version, cmds[0], ws[0]).version, cmds[1..], ws[1..])
  }

  lemma {:induction false} EffectsAppend(a: seq<Event>, b: seq<Event>)
    ensures Effects(a + b) == Effects(a) + Effects(b)
  {
    if a == [] {
      assert a + b == b;
    } else {
      assert (a + b)[1..] == a[1..] + b;
      EffectsAppend(a[1..], b);
    }
  }

  lemma {:induction false} EffectsOfDids(es: seq<Effect>)
    ensures Effects(Dids(es)) == es
  {
    if es == [] {
    } else {
      assert ([Did(es[0])] + Dids(es[1..]))[1..] == Dids(es[1..]);
      EffectsOfDids(es[1..]);
    }
  }

  lemma {:induction false} EffectsOfRecord(a: Answer)
    ensures Effects(Record(a)) == a.before + a.after
  {
    var sent := [Sent(Frame(a.framing, a.serial, a.status))];
    EffectsAppend(Dids(a.before) + sent, Dids(a.after));
    EffectsAppend(Dids(a.before), sent);
    EffectsOfDids(a.before);
    EffectsOfDids(a.after);
    assert Effects(sent) == [];
  }

  /** Over any session the recorder is asked for exactly what the commands ask for, once each and in
      order. */
  lemma {:induction false} SessionDoesWhatIsAsked(c: Config, version: int, cmds: seq<string>, ws: seq<World>)
    requires |ws| == |cmds| && AllParseable(c, version, cmds, ws)
    ensures Effects(Records(Answers(c, version, cmds, ws))) == AllAsked(c, version, cmds, ws)
    decreases |cmds|
  {
    hide Respond, Parseable, Record, AskedBefore, AskedAfter;
    if cmds == [] {
    } else {
      var a := Respond(c, version, cmds[0], ws[0]);
      FirstAnswer(c, version, cmds, ws);
      EffectsAppend(Record(a), Records(Answers(c, a.version, cmds[1..], ws[1..])));
      EffectsOfRecord(a);
      DoesWhatIsAsked(c, version, cmds[0], ws[0]);
      SessionDoesWhatIsAsked(c, a.version, cmds[1..], ws[1..]);
    }
  }

  /** m_xon as the last of the effects leaves it. */
  function LastXon(es: seq<Effect>): Option<bool>
  {
    if es == [] then None
    else
      var last := es[|es| - 1];
      if last.SetXon? then Some(last.on) else LastXon(es[..|es| - 1])
  }

  lemma {:induction false} LastXonAppend(a: seq<Effect>, b: seq<Effect>)
    ensures LastXon(a + b) == if LastXon(b).Some? then LastXon(b) else LastXon(a)
  {
    if b == [] {
      assert a + b == a;
    } else {
      assert (a + b)[..|a + b| - 1] == a + b[..|b| - 1];
      LastXonAppend(a, b[..|b| - 1]);
    }
  }

  predicate SaysFlow(version: int, cmd: string) { Says(version, cmd, "XON") || Says(version, cmd, "XOFF") }

  /** After a session m_xon is what the last XON or XOFF command asked for. */
  lemma {:induction false} LastFlowCommandWins(c: Config, version: int, cmds: seq<string>, ws: seq<World>, i: nat)
    requires |ws| == |cmds| && AllParseable(c, version, cmds, ws) && i <= |cmds|
    requires i < |cmds| ==> SaysFlow(VersionAfter(c, version, cmds, ws, i), cmds[i])
    requires forall j | i < j < |cmds| :: !SaysFlow(VersionAfter(c, version, cmds, ws, j), cmds[j])
    requires i == |cmds| ==> forall j | 0 <= j < |cmds| :: !SaysFlow(VersionAfter(c, version, cmds, ws, j), cmds[j])
    ensures LastXon(Effects(Records(Answers(c, version, cmds, ws))))
      == if i == |cmds| then None else Some(Says(VersionAfter(c, version, cmds, ws, i), cmds[i], "XON"))
  {
    SessionDoesWhatIsAsked(c, version, cmds, ws);
    LastAsked(c, version, cmds, ws, i);
  }

  lemma {:induction false} LastAsked(c: Config, version: int, cmds: seq<string>, ws: seq<World>, i: nat)
    requires |ws| == |cmds| && AllParseable(c, version, cmds, ws) && i <= |cmds|
    requires i < |cmds| ==> SaysFlow(VersionAfter(c, version, cmds, ws, i), cmds[i])
    requires forall j | i < j < |cmds| :: !SaysFlow(VersionAfter(c, version, cmds, ws, j), cmds[j])
    requires i == |cmds| ==> forall j | 0 <= j < |cmds| :: !SaysFlow(VersionAfter(c, version, cmds, ws, j), cmds[j])
    ensures LastXon(AllAsked(c, version, cmds, ws))
      == if i == |cmds| then None else Some(Says(VersionAfter(c, version, cmds, ws, i), cmds[i], "XON"))
    decreases |cmds|
  {
    hide Respond, Parseable, AskedBefore, AskedAfter, Says, SaysFlow;
    if cmds == [] {
    } else {
      var rest := Respond(c, version, cmds[0], ws[0]).version;
      var (cs, us) := (cmds[1..], ws[1..]);
      LastXonOf(version, cmds[0]);
      LastXonAppend(AskedBefore(version, cmds[0]) + AskedAfter(version, cmds[0]), AllAsked(c, rest, cs, us));
      forall j | 0 < j < |cmds| ensures VersionAfter(c, version, cmds, ws, j) == VersionAfter(c, rest, cs, us, j - 1) {
        VersionLater(c, version, cmds, ws, j);
      }
      forall j | 0 <= j < |cs| ensures VersionAfter(c, rest, cs, us, j) == VersionAfter(c, version, cmds, ws, j + 1) {
      }
      assert VersionAfter(c, version, cmds, ws, 0) == version;
      LastAsked(c, rest, cs, us, if i == 0 then |cs| else i - 1);
    }
  }

  lemma {:induction false} LastXonOf(version: int, cmd: string)
    ensures LastXon(AskedBefore(version, cmd) + AskedAfter(version, cmd))
      == if SaysFlow(version, cmd) then Some(Says(version, cmd, "XON")) else None
  {
    hide Spoken, Says, Data, Strtoul, AskedBefore, AskedAfter;
    AskedBySpoken(version, cmd);
    SpokenOrder(version, cmd);
    LastXonAppend(AskedBefore(version, cmd), AskedAfter(version, cmd));
  }

  // ---------------------------------------------------------------- when the loop ends

  /** Before a round that ends the loop exactly the readable rounds are processed, one each. */
  function Read(polls: seq<Poll>): seq<Poll> {
    if polls == [] then [] else (if polls[0].readable && polls[0].ret > 0 then [polls[0]] else []) + Read(polls[1..])
  }

  /** While m_run holds and poll reports no hang-up, invalid descriptor or overflow, the loop goes on. */
  lemma {:induction false} LoopProcesses(polls: seq<Poll>)
    requires forall p | p in polls :: p.run && !p.hup && !p.nval && !(p.readable && p.ret < 0 && p.overflow)
    ensures Heard(polls) == Read(polls) && Farewell(polls) == []
  {
    if polls == [] {
    } else {
      assert polls[0] in polls;
      LoopProcesses(polls[1..]);
    }
  }

  /** The first round in which m_run is false, or poll reports one of these, ends the loop before it
      reads; an invalid descriptor without a hang-up is a fatal error. */
  lemma {:induction false} LoopStopsAt(c: Config, version: int, polls: seq<Poll>, i: nat)
    requires i < |polls|
    requires forall j | 0 <= j < i ::
      polls[j].run && !polls[j].hup && !polls[j].nval && !(polls[j].readable && polls[j].ret < 0 && polls[j].overflow)
    requires var p := polls[i]; !p.run || p.hup || p.nval || (p.readable && p.ret < 0 && p.overflow)
    requires AllHeardParseable(c, version, polls)
    ensures Heard(polls) == Read(polls[..i])
    ensures AllHeardParseable(c, version, polls[..i])
    ensures Events(c, version, polls) == Events(c, version, polls[..i])
      + if polls[i].run && !polls[i].hup && polls[i].nval then [Did(Fatal("poll error"))] else []
    ensures LastVersion(c, version, polls) == LastVersion(c, version, polls[..i])
  {
    hide AllParseable, Answers, Records, VersionAfter;
    HeardUntil(polls, i);
    assert Dids([Fatal("poll error")]) == [Did(Fatal("poll error"))] + Dids([]);
  }

  lemma {:induction false} HeardUntil(polls: seq<Poll>, i: nat)
    requires i < |polls|
    requires forall j | 0 <= j < i ::
      polls[j].run && !polls[j].hup && !polls[j].nval && !(polls[j].readable && polls[j].ret < 0 && polls[j].overflow)
    requires var p := polls[i]; !p.run || p.hup || p.nval || (p.readable && p.ret < 0 && p.overflow)
    ensures Heard(polls) == Heard(polls[..i]) == Read(polls[..i]) && Farewell(polls[..i]) == []
    ensures Farewell(polls) == if polls[i].run && !polls[i].hup && polls[i].nval then [Fatal("poll error")] else []
    decreases i
  {
    if i == 0 {
    } else {
      assert polls[..i][1..] == polls[1..][..i - 1];
      HeardUntil(polls[1..], i - 1);
    }
  }
}
