/**
  Bringing up the capture device, HauppaugeDev.cpp.  The vendor driver is an arbitrary oracle: the
  answer to a call may depend on how many calls came before it.  Every call is recorded with its
  answer, and the contracts say which records a start or a stop can leave.
*/
module Hauppauge {
  import opened Option

  const MAX_RETRY: nat := 300

  /** m_params.videoInput; `Other` is any code the switch sends to its default branch. */
  datatype VideoInput = Cvbs | Component | Sdi | Hdmi | Other(code: int)

  datatype BusMode = Bus656x10 | Bus656x10Dc | Bus422x10x2

  datatype Video = Video(width: int, height: int, interlaced: bool, vFreq: real)

  /** m_params.audioInput; the line input stands for every code that the switch sends to its default
      branch, and is also taken when S/PDIF cannot be had. */
  datatype AudioInput = Spdif | HdmiAudio | LineIn

  /** The parameters of set_input_format: whether the codec is AC3, the RCA boost, the video coding
      mode if it is one of field, frame, MBAFF and PAFF, and the flip of fields. */
  datatype Params = Params(audio: AudioInput, ac3: bool, boost: bool, coding: Option<int>, flip: bool)

  datatype Answer = Answer(ok: bool, code: int, video: Video)

  datatype Call =
    | SetInput(input: VideoInput)
    | HasInputSignal(yes: bool)
    | GetParams(input: VideoInput, ok: bool, video: Video) // getOutputParams, getHDMIParams
    | GetAudioParams
    | GetHdmiFormat(vic: int)
    | SetHdmiFormat(vic: int, ok: bool)
    | ResetDigital(optical: bool, ok: bool)                // the CS8416 receiver, if there is one
    | SetPortE(first: int, second: int)                    // setPortStateBits(FX2_PORT_E, ...)
    | WriteCodingMode(coding: int)                         // into the registry
    | FlipFields
    | SetInputFormat(input: VideoInput, video: Video, ok: bool)
    | SetOutputBusMode(mode: BusMode)
    | InitAudioCodec                                       // audio_CX2081x.init()
    | StartCapture(ok: bool)
    | StopCapture(ok: bool)

  /** HauppaugeDev::valid_resolution */
  predicate ValidResolution(width: int, height: int) {
    width in {1920, 1280, 720} && height in {1080, 720, 576, 480}
  }

  /** roundf(v) == n, for n > 0 */
  predicate RoundsTo(v: real, n: int) { n as real - 0.5 <= v < n as real + 0.5 }

  /** The input that a start brings up: every unknown code means HDMI. */
  function Target(input: VideoInput): VideoInput { if input.Other? then Hdmi else input }

  /** The call told the encoder a format, and the encoder took it. */
  predicate Formats(c: Call)
  {
    match c
    case SetInputFormat(_, v, ok) => ok && ValidResolution(v.width, v.height)
    case SetHdmiFormat(vic, ok) => ok && vic > 0
    case _ => false
  }

  /** The bus mode that belongs to an accepted format. */
  function BusFor(c: Call): BusMode
  {
    match c
    case SetInputFormat(Cvbs, _, _) => Bus656x10
    case SetInputFormat(Component, v, _) =>
      if v.interlaced && ((v.height == 480 && RoundsTo(v.vFreq, 60)) || (v.height == 576 && RoundsTo(v.vFreq, 50)))
      then Bus656x10Dc else Bus422x10x2
    case SetHdmiFormat(vic, _) => if vic in {6, 7, 21, 22} then Bus656x10Dc else Bus422x10x2
    case _ => Bus422x10x2
  }

  // ---------------------------------------------------------------- what a record must satisfy

  /** The two kinds of polling. */
  datatype Kind = SignalTry | ParamsTry

  predicate Is(k: Kind, c: Call) { if k.SignalTry? then c.HasInputSignal? else c.GetParams? }

  function Count(k: Kind, calls: seq<Call>): nat {
    if calls == [] then 0 else (if Is(k, calls[0]) then 1 else 0) + Count(k, calls[1..])
  }

  predicate GoodPoll(c: Call) {
    (c.HasInputSignal? && c.yes) || (c.GetParams? && c.ok && ValidResolution(c.video.width, c.video.height))
  }

  /** A bounded polling loop: tries of one kind, stopping at the first good answer. */
  predicate IsPoll(seg: seq<Call>, found: bool)
  {
    if found then
      0 < |seg| <= MAX_RETRY && GoodPoll(seg[|seg| - 1]) && forall c | c in seg[..|seg| - 1] :: !GoodPoll(c)
    else
      |seg| == MAX_RETRY && forall c | c in seg :: !GoodPoll(c)
  }

  /** In `part` of the record `seg`: formats are what the receiver reported, the bus mode fits the
      format. */
  predicate Consistent(input: VideoInput, part: seq<Call>, seg: seq<Call>)
  {
    && (forall c | c in part && c.SetInputFormat? ::
          c.input == input && GetParams(input, true, c.video) in seg && ValidResolution(c.video.width, c.video.height))
    && (forall c | c in part && c.SetHdmiFormat? :: input.Hdmi? && c.vic > 0 && GetHdmiFormat(c.vic) in seg)
    && (forall c | c in part && c.SetOutputBusMode? :: exists f :: f in seg && Formats(f) && BusFor(f) == c.mode)
  }

  /** A call of set_input_format before the format itself. */
  predicate SetsUp(c: Call) { c.ResetDigital? || c.SetPortE? || c.WriteCodingMode? || c.FlipFields? }

  /** What set_audio_format does: S/PDIF without a digital receiver becomes the line input, HDMI
      without one the I2S input of older devices. */
  predicate AudioSetUp(p: Params, seg: seq<Call>)
  {
    var line := SetPortE(if p.boost then 0x18 else 0x08, if p.boost then 0 else 0x10);
    match p.audio
    case LineIn => seg == [line]
    case Spdif => seg == [ResetDigital(true, true), SetPortE(0x10, 0)] || seg == [ResetDigital(true, false), line]
    case HdmiAudio =>
      || seg == [ResetDigital(false, true), SetPortE(if p.ac3 then 0x10 else 0, 0)]
      || seg == [ResetDigital(false, false), SetPortE(0, 0x18)]
  }

  /** The calls for an interlaced picture. */
  function FieldCalls(p: Params, interlaced: bool): seq<Call> {
    (if p.coding.Some? && interlaced then [WriteCodingMode(p.coding.value)] else [])
    + (if interlaced && p.flip then [FlipFields] else [])
  }

  /** The calls of set_input_format before the format: the audio, then the fields. */
  predicate SetUpFor(p: Params, interlaced: bool, seg: seq<Call>)
  {
    var fields := FieldCalls(p, interlaced);
    |fields| <= |seg| && AudioSetUp(p, seg[..|seg| - |fields|]) && seg[|seg| - |fields|..] == fields
  }

  /** Each setInputFormat comes straight after its set-up. */
  predicate Prepared(p: Params, seg: seq<Call>)
  {
    forall i | 0 <= i < |seg| && seg[i].SetInputFormat? ::
      exists k :: 0 <= k <= i && SetUpFor(p, seg[i].video.interlaced, seg[k..i])
  }

  predicate NoCapture(seg: seq<Call>) { forall c | c in seg :: !c.StartCapture? && !c.StopCapture? }

  predicate Formatted(seg: seq<Call>) { exists f :: f in seg && Formats(f) && SetOutputBusMode(BusFor(f)) in seg }

  /** The receiver is switched first, and only if it is not on that input already. */
  predicate Switched(input: VideoInput, was: Option<VideoInput>, seg: seq<Call>)
  {
    if was == Some(input) then forall c | c in seg :: !c.SetInput?
    else seg != [] && seg[0] == SetInput(input) && forall c | c in seg[1..] :: !c.SetInput?
  }

  predicate Bounded(seg: seq<Call>) { Count(SignalTry, seg) <= MAX_RETRY && Count(ParamsTry, seg) <= MAX_RETRY }

  predicate Exhausted(k: Kind, seg: seq<Call>) {
    Count(k, seg) == MAX_RETRY && forall c | c in seg && Is(k, c) :: !GoodPoll(c)
  }

  /** An init fails only after all tries of a poll or by a format that the encoder refuses. */
  predicate GaveUp(seg: seq<Call>)
  {
    && seg != []
    && match seg[|seg| - 1]
       case HasInputSignal(_) => Exhausted(SignalTry, seg)
       case GetParams(_, _, _) => Exhausted(ParamsTry, seg)
       case SetInputFormat(_, _, ok) => !ok
       case _ => false
  }

  /** m_errmsg after an init: a refused format leaves an old message in place. */
  function Message(errmsg: string, seg: seq<Call>): string
  {
    if seg == [] then errmsg
    else
      match seg[|seg| - 1]
      case HasInputSignal(_) => "No input signal."
      case GetParams(_, _, _) => "Cannot determine video mode."
      case StartCapture(ok) => if ok then errmsg else "Encoder start capture failed."
      case _ => errmsg
  }

  /** The record of init_cvbs, init_component or init_hdmi. */
  predicate InitRecord(input: VideoInput, was: Option<VideoInput>, seg: seq<Call>, ok: bool)
  {
    && NoCapture(seg) && Switched(input, was, seg) && Consistent(input, seg, seg) && Bounded(seg)
    && (if ok then Formatted(seg) else GaveUp(seg))
  }

  // ---------------------------------------------------------------- joining records

  lemma {:induction false} CountAppend(k: Kind, a: seq<Call>, b: seq<Call>)
    ensures Count(k, a + b) == Count(k, a) + Count(k, b)
  {
    if a == [] {
      assert a + b == b;
    } else {
      assert (a + b)[1..] == a[1..] + b;
      CountAppend(k, a[1..], b);
    }
  }

  lemma {:induction false} CountAtMost(k: Kind, a: seq<Call>)
    ensures Count(k, a) <= |a|
    ensures (forall c | c in a :: !Is(k, c)) ==> Count(k, a) == 0
    ensures (forall c | c in a :: Is(k, c)) ==> Count(k, a) == |a|
  {
    if a == [] {
    } else {
      CountAtMost(k, a[1..]);
    }
  }

  /** A record made of the switch, the signal poll, other calls, the parameter poll and the rest. */
  function Join(a: seq<Call>, b: seq<Call>, c: seq<Call>, d: seq<Call>, e: seq<Call>): seq<Call> {
    a + (b + (c + (d + e)))
  }

  predicate Parts(a: seq<Call>, b: seq<Call>, c: seq<Call>, d: seq<Call>, e: seq<Call>)
  {
    && |a| <= 1 && (forall x | x in a :: x.SetInput?)
    && |b| <= MAX_RETRY && (forall x | x in b :: x.HasInputSignal?)
    && |d| <= MAX_RETRY && (forall x | x in d :: x.GetParams?)
    && (forall x | x in c + e ::
          !x.HasInputSignal? && !x.GetParams? && !x.SetInput? && !x.StartCapture? && !x.StopCapture?)
  }

  lemma {:induction false} JoinedIsBounded(a: seq<Call>, b: seq<Call>, c: seq<Call>, d: seq<Call>, e: seq<Call>,
                                           k: Kind)
    requires Parts(a, b, c, d, e)
    ensures Count(k, Join(a, b, c, d, e)) == (if k.SignalTry? then |b| else |d|) <= MAX_RETRY
  {
    hide Count;
    CountAppend(k, a, b + (c + (d + e)));
    CountAppend(k, b, c + (d + e));
    CountAppend(k, c, d + e);
    CountAppend(k, d, e);
    assert forall x | x in c || x in e :: x in c + e;
    CountAtMost(k, a);
    CountAtMost(k, b);
    CountAtMost(k, c);
    CountAtMost(k, d);
    CountAtMost(k, e);
  }

  lemma {:induction false} Joined(input: VideoInput, was: Option<VideoInput>,
                                  a: seq<Call>, b: seq<Call>, c: seq<Call>, d: seq<Call>, e: seq<Call>, ok: bool)
    requires Switched(input, was, a) && Parts(a, b, c, d, e)
    requires Consistent(input, c + e, c + d + e)
    requires if ok then Formatted(c + e) else GaveUp(Join(a, b, c, d, e))
    ensures InitRecord(input, was, Join(a, b, c, d, e), ok)
  {
    var seg := Join(a, b, c, d, e);
    JoinedIsBounded(a, b, c, d, e, SignalTry);
    JoinedIsBounded(a, b, c, d, e, ParamsTry);
    SwitchedJoined(input, was, a, b + (c + (d + e)));
    assert forall x | x in c + d + e :: x in seg;
    assert forall x | x in seg && x in c + e :: x in c + d + e;
    assert forall x | x in seg :: x in a || x in b || x in d || x in c + e;
    assert forall x | x in c + e :: x in seg;
  }

  lemma {:induction false} SwitchedJoined(input: VideoInput, was: Option<VideoInput>, a: seq<Call>, rest: seq<Call>)
    requires Switched(input, was, a) && |a| <= 1 && forall x | x in rest :: !x.SetInput?
    ensures Switched(input, was, a + rest)
  {
    if a != [] {
      assert (a + rest)[1..] == rest;
    }
  }

  // ---------------------------------------------------------------- what the answers lead to

  /** How many tries before the first yes, when call number `n` is the first one. */
  function FirstYes(f: nat -> Answer, n: nat, tries: nat): (r: Option<nat>)
    ensures r.Some? ==> r.value < tries
    decreases tries
  {
    if tries == 0 then None else if f(n).ok then Some(0) else OneMore(FirstYes(f, n + 1, tries - 1))
  }

  /** A report that the encoder can be given. */
  predicate Usable(a: Answer) {
    && a.ok && (a.video.width == 1920 || a.video.width == 1280 || a.video.width == 720)
    && (a.video.height == 1080 || a.video.height == 720 || a.video.height == 576 || a.video.height == 480)
  }

  function FirstUsable(f: nat -> Answer, n: nat, tries: nat): (r: Option<nat>)
    ensures r.Some? ==> r.value < tries
    decreases tries
  {
    if tries == 0 then None else if Usable(f(n)) then Some(0) else OneMore(FirstUsable(f, n + 1, tries - 1))
  }

  function OneMore(r: Option<nat>): Option<nat> { if r.Some? then Some(r.value + 1) else None }

  function Plus(k: nat, r: Option<nat>): Option<nat> { if r.Some? then Some(k + r.value) else None }

  lemma {:induction false} FirstYesMeans(f: nat -> Answer, n: nat, tries: nat)
    ensures var r := FirstYes(f, n, tries);
      && (r.Some? ==> f(n + r.value).ok && forall k | n <= k < n + r.value :: !f(k).ok)
      && (r.None? ==> forall k | n <= k < n + tries :: !f(k).ok)
    decreases tries
  {
    if tries == 0 || f(n).ok {
    } else {
      FirstYesMeans(f, n + 1, tries - 1);
    }
  }

  lemma {:induction false} FirstUsableMeans(f: nat -> Answer, n: nat, tries: nat)
    ensures var r := FirstUsable(f, n, tries);
      && (r.Some? ==> Usable(f(n + r.value)) && forall k | n <= k < n + r.value :: !Usable(f(k)))
      && (r.None? ==> forall k | n <= k < n + tries :: !Usable(f(k)))
    decreases tries
  {
    hide Usable;
    if tries == 0 || Usable(f(n)) {
    } else {
      FirstUsableMeans(f, n + 1, tries - 1);
    }
  }

  lemma {:induction false} OneTry(f: nat -> Answer, n: nat, k: nat, tries: nat)
    requires k < tries
    ensures var (a, yes, usable) := (f(n + k), FirstYes(f, n + k, tries - k), FirstUsable(f, n + k, tries - k));
      && Plus(k, yes) == (if a.ok then Some(k) else Plus(k + 1, FirstYes(f, n + k + 1, tries - k - 1)))
      && Plus(k, usable) == (if Usable(a) then Some(k) else Plus(k + 1, FirstUsable(f, n + k + 1, tries - k - 1)))
  {
  }

  lemma {:induction false} NoTry(f: nat -> Answer, n: nat)
    ensures FirstYes(f, n, 0) == None && FirstUsable(f, n, 0) == None
  {
  }

  lemma {:induction false} UsableIff(a: Answer)
    ensures Usable(a) <==> a.ok && ValidResolution(a.video.width, a.video.height)
  {
  }

  /** How an init gets to a format, if it does. */
  datatype Way = Nowhere | ByCode(vic: int) | ByReport(video: Video)

  /** The first usable report among 300. */
  function Reporting(f: nat -> Answer, n: nat): Way {
    var r := FirstUsable(f, n, 300);
    if r.None? then Nowhere else ByReport(f(n + r.value).video)
  }

  /** What the answers from call number `n` on, the first one after the switch, lead to. */
  function Leading(input: VideoInput, f: nat -> Answer, n: nat): Way
  {
    var s := FirstYes(f, n, 300);
    if s.None? then Nowhere else AfterSignal(input, f, n + s.value + 1)
  }

  /** The HDMI code is tried first; asking for it takes two calls, and telling it another. */
  function AfterSignal(input: VideoInput, f: nat -> Answer, n: nat): Way
  {
    if !input.Hdmi? then Reporting(f, n)
    else
      var vic := f(n + 1).code;
      if vic <= 0 then Reporting(f, n + 2)
      else if f(n + 2).ok then ByCode(vic) else Reporting(f, n + 3)
  }

  /** The record of an init that went this way; `ok` is whether it succeeded. */
  predicate Went(way: Way, input: VideoInput, seg: seq<Call>, ok: bool)
  {
    match way
    case Nowhere => !ok && forall c | c in seg :: !c.SetInputFormat?
    case ByCode(vic) => ok && SetHdmiFormat(vic, true) in seg
    case ByReport(v) => SetInputFormat(input, v, ok) in seg
  }

  /** The call number of the first poll. */
  function AfterSwitch(input: VideoInput, was: Option<VideoInput>, n: nat): nat {
    if was == Some(input) then n else n + 1
  }

  // ---------------------------------------------------------------- the device

  class Device {
    const input: VideoInput         // m_params.videoInput
    const params: Params
    const oracle: nat -> Answer
    var calls: seq<Call>
    var initialized: Option<VideoInput> // m_video_initialized, None for -1
    var errmsg: string

    constructor (input: VideoInput, params: Params, oracle: nat -> Answer)
      ensures this.input == input && this.params == params && calls == [] && initialized == None && errmsg == ""
    {
      this.input := input;
      this.params := params;
      this.oracle := oracle;
      calls := [];
      initialized := None;
      errmsg := "";
    }

    /** The loop over hasInputSignal, HauppaugeDev.cpp:310-322, the same in all three inits. */
    method PollSignal() returns (found: bool, ghost seg: seq<Call>)
      modifies this`calls
      ensures calls == old(calls) + seg && IsPoll(seg, found)
      ensures forall c | c in seg :: c.HasInputSignal?
      ensures var r := FirstYes(oracle, |old(calls)|, 300);
        found == r.Some? && |seg| == (if found then r.value + 1 else 300)
    {
      hide FirstYes, FirstUsable, Usable;
      seg := [];
      var idx := 0;
      while idx < MAX_RETRY
        invariant idx == |seg| <= MAX_RETRY && calls == old(calls) + seg
        invariant forall c | c in seg :: c == HasInputSignal(false)
        invariant FirstYes(oracle, |old(calls)|, 300) == Plus(idx, FirstYes(oracle, |old(calls)| + idx, 300 - idx))
      {
        OneTry(oracle, |old(calls)|, idx, 300);
        var yes := oracle(|calls|).ok;
        calls := calls + [HasInputSignal(yes)];
        seg := seg + [HasInputSignal(yes)];
        if yes {
          break;
        }
        idx := idx + 1;
      }
      NoTry(oracle, |calls|);
      found := idx != MAX_RETRY;
    }

    /** The loop over getOutputParams or getHDMIParams, HauppaugeDev.cpp:324-339, 465-480: the
        receiver can report garbage. */
    method PollParams(from: VideoInput) returns (vp: Option<Video>, ghost seg: seq<Call>)
      modifies this`calls
      ensures calls == old(calls) + seg && IsPoll(seg, vp.Some?)
      ensures forall c | c in seg :: c.GetParams?
      ensures Reporting(oracle, |old(calls)|) == if vp.Some? then ByReport(vp.value) else Nowhere
      ensures vp.Some? ==> GetParams(from, true, vp.value) in seg && ValidResolution(vp.value.width, vp.value.height)
    {
      hide FirstYes, FirstUsable, Usable;
      seg := [];
      vp := None;
      var idx := 0;
      while idx < MAX_RETRY
        invariant idx == |seg| <= MAX_RETRY && calls == old(calls) + seg && vp == None
        invariant forall c | c in seg :: c.GetParams? && !GoodPoll(c)
        invariant FirstUsable(oracle, |old(calls)|, 300)
          == Plus(idx, FirstUsable(oracle, |old(calls)| + idx, 300 - idx))
      {
        OneTry(oracle, |old(calls)|, idx, 300);
        var a := oracle(|calls|);
        UsableIff(a);
        calls := calls + [GetParams(from, a.ok, a.video)];
        seg := seg + [GetParams(from, a.ok, a.video)];
        if a.ok && ValidResolution(a.video.width, a.video.height) {
          vp := Some(a.video);
          break;
        }
        idx := idx + 1;
      }
      NoTry(oracle, |calls|);
    }

    /** setInput, unless the receiver is on that input since an earlier successful init. */
    method Switch(to: VideoInput) returns (ghost seg: seq<Call>)
      modifies this`calls
      ensures calls == old(calls) + seg
      ensures seg == if initialized == Some(to) then [] else [SetInput(to)]
    {
      seg := [];
      if initialized != Some(to) {
        calls := calls + [SetInput(to)];
        seg := [SetInput(to)];
      }
    }

    /** The start of all three inits, HauppaugeDev.cpp:302-322, 362-382, 436-456. */
    method SwitchAndPoll(to: VideoInput) returns (found: bool, ghost a: seq<Call>, ghost b: seq<Call>)
      modifies this`calls
      ensures calls == old(calls) + (a + b) && Polled(to, initialized, a, b, []) && IsPoll(b, found)
      ensures NoFormat(a) && NoFormat(b) && NoFormat([])
      ensures |old(calls)| + |a| == AfterSwitch(to, initialized, |old(calls)|)
      ensures var r := FirstYes(oracle, |old(calls)| + |a|, 300); found == r.Some? && (found ==> |b| == r.value + 1)
    {
      hide IsPoll, FirstYes;
      a := Switch(to);
      found, b := PollSignal();
      PollIsBounded(b, found);
    }

    /** HauppaugeDev::set_digital_audio: the device may have no digital receiver. */
    method SetDigitalAudio(optical: bool) returns (ok: bool)
      modifies this`calls
      ensures calls == old(calls) + [ResetDigital(optical, ok)]
    {
      ok := oracle(|calls|).ok;
      calls := calls + [ResetDigital(optical, ok)];
    }

    /** HauppaugeDev::set_audio_format, HauppaugeDev.cpp:148-221. */
    method SetAudioFormat() returns (ghost seg: seq<Call>)
      modifies this`calls
      ensures calls == old(calls) + seg && AudioSetUp(params, seg)
    {
      var spdif := params.audio.Spdif?;
      seg := [];
      if spdif {
        var ok := SetDigitalAudio(true);
        seg := [ResetDigital(true, ok)];
        if ok {
          calls := calls + [SetPortE(0x10, 0)];
          seg := seg + [SetPortE(0x10, 0)];
        } else {
          spdif := false;
        }
      }
      if !spdif {
        var port;
        if params.audio.HdmiAudio? {
          var ok := SetDigitalAudio(false);
          seg := [ResetDigital(false, ok)];
          port := if !ok then SetPortE(0, 0x18) else if params.ac3 then SetPortE(0x10, 0) else SetPortE(0, 0);
        } else {
          port := if params.boost then SetPortE(0x18, 0) else SetPortE(0x08, 0x10);
        }
        calls := calls + [port];
        seg := seg + [port];
      }
    }

    /** HauppaugeDev::set_input_format with the parameters that were read; the error message is
        left as it was. */
    method SetFormat(source: VideoInput, vp: Video) returns (ok: bool, ghost p: seq<Call>)
      modifies this`calls
      ensures calls == old(calls) + p + [SetInputFormat(source, vp, ok)]
      ensures SetUpFor(params, vp.interlaced, p) && forall c | c in p :: SetsUp(c)
    {
      hide AudioSetUp;
      ghost var audio := SetAudioFormat();
      if params.coding.Some? && vp.interlaced {
        calls := calls + [WriteCodingMode(params.coding.value)];
      }
      if vp.interlaced && params.flip {
        calls := calls + [FlipFields];
      }
      p := audio + FieldCalls(params, vp.interlaced);
      SetUpJoined(params, vp.interlaced, audio);
      ok := oracle(|calls|).ok;
      calls := calls + [SetInputFormat(source, vp, ok)];
    }

    /** The end of an init, HauppaugeDev.cpp:348-356, 408-423, 482-489: the format, the bus mode and,
        for component, the audio codec. */
    method Program(from: VideoInput, vp: Video) returns (ok: bool, ghost p: seq<Call>, ghost seg: seq<Call>)
      requires from.Cvbs? || from.Component? || from.Hdmi?
      modifies this`calls
      ensures calls == old(calls) + (p + seg) && Chosen(from, vp, ok, seg)
      ensures SetUpFor(params, vp.interlaced, p) && forall c | c in p :: SetsUp(c)
    {
      hide SetUpFor;
      ok, p := SetFormat(from, vp);
      seg := [SetInputFormat(from, vp, ok)];
      if !ok {
        return;
      }
      var mode := Bus656x10;
      if from.Component? {
        if (vp.height == 480 && RoundsTo(vp.vFreq, 60) && vp.interlaced)
           || (vp.height == 576 && RoundsTo(vp.vFreq, 50) && vp.interlaced) {
          mode := Bus656x10Dc;
        } else {
          mode := Bus422x10x2;
        }
      } else if from.Hdmi? {
        mode := Bus422x10x2;
      }
      calls := calls + [SetOutputBusMode(mode)];
      seg := seg + [SetOutputBusMode(mode)];
      if from.Component? {
        calls := calls + [InitAudioCodec];
        seg := seg + [InitAudioCodec];
      }
    }

    /** init_cvbs and init_component, HauppaugeDev.cpp:300-425, which differ in the input, the bus
        mode and the audio codec. */
    method InitAnalog(from: VideoInput) returns (ok: bool, ghost seg: seq<Call>)
      requires from.Cvbs? || from.Component?
      modifies this
      ensures calls == old(calls) + seg && InitRecord(from, old(initialized), seg, ok) && Prepared(params, seg)
      ensures Went(Leading(from, oracle, AfterSwitch(from, old(initialized), |old(calls)|)), from, seg, ok)
      ensures initialized == if ok then Some(from) else old(initialized)
      ensures errmsg == Message(old(errmsg), seg) && (ok ==> errmsg == old(errmsg))
    {
      hide InitRecord, IsPoll, Join, Message, Prepared, Polled, NoFormat, FirstYes, Reporting, AfterSwitch;
      var found, a, b := SwitchAndPoll(from);
      if !found {
        NoSignal(from, initialized, a, b, errmsg);
        NothingToSetUp(params, a, b, [], [], []);
        seg := JoinFlat(a, b, [], [], []);
        errmsg := "No input signal.";
        return false, seg;
      }
      NothingAsked(from);
      ok, seg := FormatReported(from, a, b, []);
      assert a + b + [] == a + b;
      if ok {
        initialized := Some(from);
      }
    }

    /** The rest of an init that goes by the parameters of the receiver; `c` was asked before. */
    method FormatReported(from: VideoInput, ghost a: seq<Call>, ghost b: seq<Call>, ghost c: seq<Call>)
      returns (ok: bool, ghost seg: seq<Call>)
      requires from.Cvbs? || from.Component? || from.Hdmi?
      requires Polled(from, initialized, a, b, []) && IsPoll(b, true) && Asked(from, c)
      requires NoFormat(a) && NoFormat(b) && NoFormat(c)
      modifies this`calls, this`errmsg
      ensures a + b + c <= seg && calls == old(calls) + seg[|a + b + c|..]
      ensures InitRecord(from, initialized, seg, ok) && Prepared(params, seg)
      ensures Went(Reporting(oracle, |old(calls)|), from, seg, ok)
      ensures errmsg == Message(old(errmsg), seg) && (ok ==> errmsg == old(errmsg))
    {
      hide InitRecord, Consistent, Formatted, IsPoll, Asked, BusFor, Join, Message;
      hide Prepared, SetUpFor, Chosen, Reporting, NoFormat;
      ghost var d, p, e, v;
      ok, d, p, e, v := ReadFormat(from);
      seg := JoinFlat(a, b, c, d, p + e);
      if v.None? {
        NoParams(from, initialized, a, b, c, d, old(errmsg));
        PollsSetNoFormat(d);
        NothingToSetUp(params, a, b, c, d, []);
      } else {
        PollsSetNoFormat(d);
        Programmed(from, initialized, a, b, c, d, p, e, v.value, ok, old(errmsg));
        IsPrepared(params, a, b, c, d, p, e, from, v.value, ok);
      }
    }

    /** init_hdmi, HauppaugeDev.cpp:434-516: the HDMI code of the source, or else its parameters. */
    method InitHdmi() returns (ok: bool, ghost seg: seq<Call>)
      modifies this
      ensures calls == old(calls) + seg && InitRecord(Hdmi, old(initialized), seg, ok) && Prepared(params, seg)
      ensures Went(Leading(Hdmi, oracle, AfterSwitch(Hdmi, old(initialized), |old(calls)|)), Hdmi, seg, ok)
      ensures initialized == if ok then Some(Hdmi) else old(initialized)
      ensures errmsg == Message(old(errmsg), seg) && (ok ==> errmsg == old(errmsg))
    {
      hide InitRecord, IsPoll, Join, Message, Prepared, Polled, NoFormat, FirstYes, Reporting, AfterSwitch;
      var found, a, b := SwitchAndPoll(Hdmi);
      if !found {
        NoSignal(Hdmi, initialized, a, b, errmsg);
        NothingToSetUp(params, a, b, [], [], []);
        seg := JoinFlat(a, b, [], [], []);
        errmsg := "No input signal.";
        return false, seg;
      }
      ok, seg := FormatHdmi(a, b);
      if ok {
        initialized := Some(Hdmi);
      }
    }

    /** The rest of init_hdmi once there is a signal, HauppaugeDev.cpp:458-505. */
    method FormatHdmi(ghost a: seq<Call>, ghost b: seq<Call>) returns (ok: bool, ghost seg: seq<Call>)
      requires Polled(Hdmi, initialized, a, b, []) && IsPoll(b, true) && NoFormat(a) && NoFormat(b)
      modifies this`calls, this`errmsg
      ensures a + b <= seg && calls == old(calls) + seg[|a + b|..]
      ensures InitRecord(Hdmi, initialized, seg, ok) && Prepared(params, seg)
      ensures Went(AfterSignal(Hdmi, oracle, |old(calls)|), Hdmi, seg, ok)
      ensures errmsg == Message(old(errmsg), seg) && (ok ==> errmsg == old(errmsg))
    {
      hide InitRecord, IsPoll, Asked, Join, Message, Prepared, Polled, NoFormat, Reporting;
      var vic, byCode, c := AskCode();
      if byCode {
        var mode := if vic in {6, 7, 21, 22} then Bus656x10Dc else Bus422x10x2;
        calls := calls + [SetOutputBusMode(mode)];
        seg := a + b + c + [SetOutputBusMode(mode)];
        Tails(a + b, c, seg);
        HdmiByCode(initialized, a, b, vic, mode, errmsg, params);
        ok := true;
      } else {
        AskedSetsNoFormat(Hdmi, c);
        ok, seg := FormatReported(Hdmi, a, b, c);
        Tails(a + b, c, seg);
      }
    }

    /** The parameters that the receiver reports and the format made of them, HauppaugeDev.cpp:324-356,
        383-423, 465-489. */
    method ReadFormat(from: VideoInput)
      returns (ok: bool, ghost d: seq<Call>, ghost p: seq<Call>, ghost e: seq<Call>, ghost v: Option<Video>)
      requires from.Cvbs? || from.Component? || from.Hdmi?
      modifies this`calls, this`errmsg
      ensures calls == old(calls) + (d + (p + e))
      ensures IsPoll(d, v.Some?) && |d| <= MAX_RETRY && forall c | c in d :: c.GetParams?
      ensures errmsg == if v.Some? then old(errmsg) else "Cannot determine video mode."
      ensures v.None? ==> p + e == [] && !ok
      ensures Reporting(oracle, |old(calls)|) == if v.Some? then ByReport(v.value) else Nowhere
      ensures v.Some? ==>
        && GetParams(from, true, v.value) in d && ValidResolution(v.value.width, v.value.height)
        && SetUpFor(params, v.value.interlaced, p) && (forall c | c in p :: SetsUp(c))
        && Chosen(from, v.value, ok, e)
    {
      hide IsPoll, SetUpFor, Chosen, Reporting;
      var vp;
      vp, d := PollParams(from);
      PollIsBounded(d, vp.Some?);
      v, p, e, ok := vp, [], [], false;
      if vp.None? {
        errmsg := "Cannot determine video mode.";
      } else {
        ok, p, e := Program(from, vp.value);
      }
    }

    /** HauppaugeDev.cpp:458-463 */
    method AskCode() returns (vic: int, ok: bool, ghost seg: seq<Call>)
      modifies this`calls
      ensures calls == old(calls) + seg
      ensures ok ==> vic > 0 && seg == [GetAudioParams, GetHdmiFormat(vic), SetHdmiFormat(vic, true)]
      ensures !ok ==> Asked(Hdmi, seg)
      ensures vic == oracle(|old(calls)| + 1).code && (ok <==> vic > 0 && oracle(|old(calls)| + 2).ok)
      ensures |seg| == if vic > 0 then 3 else 2
    {
      calls := calls + [GetAudioParams];
      vic := oracle(|calls|).code;
      calls := calls + [GetHdmiFormat(vic)];
      seg := [GetAudioParams, GetHdmiFormat(vic)];
      ok := false;
      if vic > 0 {
        ok := oracle(|calls|).ok;
        calls := calls + [SetHdmiFormat(vic, ok)];
        seg := seg + [SetHdmiFormat(vic, ok)];
      }
      assert seg[1] in seg;
    }

    /** The switch of StartEncoding, HauppaugeDev.cpp:668-688, but for SDI. */
    method Init() returns (ok: bool, ghost seg: seq<Call>)
      requires !input.Sdi?
      modifies this
      ensures calls == old(calls) + seg && InitRecord(Target(input), old(initialized), seg, ok) && Prepared(params, seg)
      ensures initialized == if ok then Some(Target(input)) else old(initialized)
      ensures errmsg == Message(old(errmsg), seg) && (ok ==> errmsg == old(errmsg))
      ensures var to := Target(input);
        Went(Leading(to, oracle, AfterSwitch(to, old(initialized), |old(calls)|)), to, seg, ok)
    {
      hide InitRecord, Prepared, Leading, AfterSwitch, Went, Message;
      if input.Cvbs? {
        ok, seg := InitAnalog(Cvbs);
      } else if input.Component? {
        ok, seg := InitAnalog(Component);
      } else {
        ok, seg := InitHdmi();
      }
    }

    /** HauppaugeDev::StartEncoding, HauppaugeDev.cpp:666-697. */
    method StartEncoding() returns (ok: bool, ghost seg: seq<Call>)
      modifies this
      ensures calls == old(calls) + seg && StartRecord(input, old(initialized), seg, initialized, ok)
      ensures Prepared(params, seg)
      ensures var to := Target(input);
        var started := seg != [] && seg[|seg| - 1].StartCapture?;
        !input.Sdi? ==> Went(Leading(to, oracle, AfterSwitch(to, old(initialized), |old(calls)|)), to, seg, started)
      ensures errmsg == if input.Sdi? then "SDI not supported." else Message(old(errmsg), seg)
      ensures seg != [] && seg[|seg| - 1] == StartCapture(false) ==> errmsg == "Encoder start capture failed."
    {
      hide InitRecord, StartRecord, Prepared, Leading, AfterSwitch, Went;
      if input.Sdi? {
        errmsg := "SDI not supported.";
        NoSdi(initialized);
        OtherCall(params, [], StopCapture(false));
        return false, [];
      }
      ok, seg := Init();
      if !ok {
        StartRefused(input, old(initialized), seg);
        RefusedHasNoStart(Target(input), old(initialized), seg);
        return;
      }
      ok := oracle(|calls|).ok;
      StartAnswered(input, old(initialized), seg, ok);
      StillWent(Leading(Target(input), oracle, AfterSwitch(Target(input), old(initialized), |old(calls)|)),
                Target(input), seg, StartCapture(ok));
      OtherCall(params, seg, StartCapture(ok));
      calls := calls + [StartCapture(ok)];
      seg := seg + [StartCapture(ok)];
      if !ok {
        errmsg := "Encoder start capture failed.";
      }
    }

    /** HauppaugeDev::StopEncoding, HauppaugeDev.cpp:699-709. */
    method StopEncoding() returns (ok: bool, ghost seg: seq<Call>)
      modifies this`calls, this`errmsg
      ensures calls == old(calls) + seg && seg == [StopCapture(ok)]
      ensures errmsg == if ok then old(errmsg) else "Encoder stop capture failed."
    {
      ok := oracle(|calls|).ok;
      calls := calls + [StopCapture(ok)];
      seg := [StopCapture(ok)];
      if !ok {
        errmsg := "Encoder stop capture failed.";
      }
    }

    /** A start or a stop. */
    method OneStep(start: bool) returns (ghost step: Step)
      modifies this
      ensures calls == old(calls) + step.seg && step.Started? == start && Prepared(params, step.seg)
      ensures SessionStep(input, old(initialized), step, initialized)
    {
      hide SessionStep, StartRecord, Prepared;
      ghost var ok: bool, seg: seq<Call>;
      if start {
        ok, seg := StartEncoding();
        step := Started(seg, ok);
        StartStep(input, old(initialized), step, initialized);
      } else {
        ok, seg := StopEncoding();
        step := Stopped(seg, ok);
        StopStep(input, initialized, step);
        OtherCall(params, [], StopCapture(ok));
        assert [] + [StopCapture(ok)] == seg;
      }
    }

    /** Any sequence of starts (true) and stops leaves the record of a session. */
    method Drive(ops: seq<bool>) returns (ghost steps: seq<Step>, ghost marks: seq<Option<VideoInput>>)
      requires initialized == None
      modifies this
      ensures calls == old(calls) + AllCalls(steps) && |steps| == |ops| && Session(input, steps, marks)
      ensures forall i | 0 <= i < |ops| :: steps[i].Started? == ops[i] && Prepared(params, steps[i].seg)
    {
      hide Session, SessionStep, StartRecord, AllCalls, Prepared;
      NewSession(input);
      steps, marks := [], [initialized];
      for n := 0 to |ops|
        invariant |steps| == n && |marks| == n + 1 && Session(input, steps, marks) && marks[n] == initialized
        invariant calls == old(calls) + AllCalls(steps)
        invariant forall i | 0 <= i < n :: steps[i].Started? == ops[i] && Prepared(params, steps[i].seg)
      {
        ghost var step := OneStep(ops[n]);
        SessionGrows(input, steps, marks, step, initialized);
        steps, marks := steps + [step], marks + [initialized];
      }
    }
  }

  lemma {:induction false} PollIsBounded(seg: seq<Call>, found: bool)
    requires IsPoll(seg, found)
    ensures |seg| <= MAX_RETRY
  {
  }

  lemma {:induction false} NoSdi(was: Option<VideoInput>)
    ensures StartRecord(Sdi, was, [], was, false)
  {
  }

  lemma {:induction false} StartRefused(input: VideoInput, was: Option<VideoInput>, seg: seq<Call>)
    requires !input.Sdi? && InitRecord(Target(input), was, seg, false)
    ensures StartRecord(input, was, seg, was, false)
  {
  }

  lemma {:induction false} RefusedHasNoStart(input: VideoInput, was: Option<VideoInput>, seg: seq<Call>)
    requires InitRecord(input, was, seg, false)
    ensures seg != [] && !seg[|seg| - 1].StartCapture?
  {
    hide Switched, Consistent, Bounded;
    assert seg != [] ==> seg[|seg| - 1] in seg;
  }

  lemma {:induction false} StillWent(way: Way, input: VideoInput, seg: seq<Call>, c: Call)
    requires Went(way, input, seg, true)
    ensures Went(way, input, seg + [c], true)
  {
    assert forall x | x in seg :: x in seg + [c];
  }

  lemma {:induction false} StartAnswered(input: VideoInput, was: Option<VideoInput>, body: seq<Call>, ok: bool)
    requires !input.Sdi? && InitRecord(Target(input), was, body, true)
    ensures StartRecord(input, was, body + [StartCapture(ok)], Some(Target(input)), ok)
  {
    assert (body + [StartCapture(ok)])[..|body|] == body;
  }

  lemma {:induction false} JoinFlat(a: seq<Call>, b: seq<Call>, c: seq<Call>, d: seq<Call>,
                                    e: seq<Call>) returns (seg: seq<Call>)
    ensures seg == Join(a, b, c, d, e) && seg == a + b + c + (d + e)
  {
    seg := Join(a, b, c, d, e);
  }

  lemma {:induction false} Tails(before: seq<Call>, c: seq<Call>, seg: seq<Call>)
    requires before + c <= seg
    ensures before <= seg && seg[|before|..] == c + seg[|before + c|..]
  {
  }

  lemma {:induction false} NothingAsked(input: VideoInput)
    ensures Asked(input, [])
  {
  }

  /** The parts of a record up to the format. */
  predicate Polled(input: VideoInput, was: Option<VideoInput>, a: seq<Call>, b: seq<Call>, d: seq<Call>)
  {
    && a == (if was == Some(input) then [] else [SetInput(input)])
    && |b| <= MAX_RETRY && (forall x | x in b :: x.HasInputSignal?)
    && |d| <= MAX_RETRY && (forall x | x in d :: x.GetParams?)
  }

  /** What init_hdmi asks before it falls back on the reported parameters. */
  predicate Asked(input: VideoInput, c: seq<Call>)
  {
    && (forall x | x in c :: x.GetAudioParams? || x.GetHdmiFormat? || (x.SetHdmiFormat? && !x.ok))
    && Consistent(input, c, c)
  }

  lemma {:induction false} NoSignal(input: VideoInput, was: Option<VideoInput>, a: seq<Call>, b: seq<Call>,
                                    errmsg: string)
    requires Polled(input, was, a, b, []) && IsPoll(b, false)
    ensures var seg := Join(a, b, [], [], []);
      InitRecord(input, was, seg, false) && Message(errmsg, seg) == "No input signal."
  {
    assert forall x | x in a :: x == SetInput(input);
    PollGaveUp(a, b, [], []);
    Joined(input, was, a, b, [], [], [], false);
  }

  lemma {:induction false} NoParams(input: VideoInput, was: Option<VideoInput>, a: seq<Call>, b: seq<Call>,
                                    c: seq<Call>, d: seq<Call>, errmsg: string)
    requires Polled(input, was, a, b, d) && Asked(input, c) && IsPoll(b, true) && IsPoll(d, false)
    ensures var seg := Join(a, b, c, d, []);
      InitRecord(input, was, seg, false) && Message(errmsg, seg) == "Cannot determine video mode."
  {
    assert c + [] == c && c + d + [] == c + d;
    assert forall x | x in c :: x in c + d;
    assert forall x | x in a :: x == SetInput(input);
    PollGaveUp(a, b, c, d);
    Joined(input, was, a, b, c, d, [], false);
  }

  lemma {:induction false} PollGaveUp(a: seq<Call>, b: seq<Call>, c: seq<Call>, d: seq<Call>)
    requires Parts(a, b, c, d, [])
    requires if d == [] then c == [] && IsPoll(b, false) else IsPoll(b, true) && IsPoll(d, false)
    ensures var seg := Join(a, b, c, d, []);
      && GaveUp(seg)
      && seg != [] && if d == [] then seg[|seg| - 1].HasInputSignal? else seg[|seg| - 1].GetParams?
  {
    hide Count, GoodPoll;
    var seg := Join(a, b, c, d, []);
    JoinedIsBounded(a, b, c, d, [], SignalTry);
    JoinedIsBounded(a, b, c, d, [], ParamsTry);
    assert forall x | x in c :: x in c + [];
    forall x | x in seg && Is(if d == [] then SignalTry else ParamsTry, x) ensures !GoodPoll(x) {
      assert x in a || x in b || x in c + [] || x in d;
    }
    if d == [] {
      assert seg == a + b;
      assert seg[|seg| - 1] == b[|b| - 1] && b[|b| - 1] in b;
      assert Exhausted(SignalTry, seg);
    } else {
      assert seg == (a + b + c) + d;
      assert seg[|seg| - 1] == d[|d| - 1] && d[|d| - 1] in d;
      assert Exhausted(ParamsTry, seg);
    }
  }

  /** The calls of an init from the format on. */
  predicate Chosen(input: VideoInput, v: Video, ok: bool, e: seq<Call>)
  {
    && e != [] && e[0] == SetInputFormat(input, v, ok)
    && (!ok ==> |e| == 1)
    && (ok ==> e[1..] == [SetOutputBusMode(BusFor(e[0]))] + if input.Component? then [InitAudioCodec] else [])
  }

  lemma {:induction false} SetUpJoined(params: Params, interlaced: bool, audio: seq<Call>)
    requires AudioSetUp(params, audio)
    ensures var p := audio + FieldCalls(params, interlaced);
      SetUpFor(params, interlaced, p) && forall c | c in p :: SetsUp(c)
  {
    var fields := FieldCalls(params, interlaced);
    assert (audio + fields)[..|audio|] == audio && (audio + fields)[|audio|..] == fields;
    assert forall c | c in audio :: SetsUp(c);
  }

  predicate NoFormat(seg: seq<Call>) { forall x | x in seg :: !x.SetInputFormat? }

  lemma {:induction false} AskedSetsNoFormat(input: VideoInput, c: seq<Call>)
    requires Asked(input, c)
    ensures NoFormat(c)
  {
  }

  lemma {:induction false} PollsSetNoFormat(d: seq<Call>)
    requires forall c | c in d :: c.GetParams?
    ensures NoFormat(d) && NoFormat([])
  {
  }

  lemma {:induction false} NothingToSetUp(p: Params, a: seq<Call>, b: seq<Call>, c: seq<Call>, d: seq<Call>,
                                          e: seq<Call>)
    requires NoFormat(a) && NoFormat(b) && NoFormat(c) && NoFormat(d) && NoFormat(e)
    ensures Prepared(p, Join(a, b, c, d, e)) && forall x | x in Join(a, b, c, d, e) :: !x.SetInputFormat?
  {
    var seg := Join(a, b, c, d, e);
    forall i | 0 <= i < |seg| ensures !seg[i].SetInputFormat? {
      assert seg[i] in seg;
    }
  }

  lemma {:induction false} IsPrepared(params: Params, a: seq<Call>, b: seq<Call>, c: seq<Call>, d: seq<Call>,
                                      p: seq<Call>, e: seq<Call>, input: VideoInput, v: Video, ok: bool)
    requires NoFormat(a) && NoFormat(b) && NoFormat(c) && NoFormat(d)
    requires SetUpFor(params, v.interlaced, p) && (forall x | x in p :: SetsUp(x)) && Chosen(input, v, ok, e)
    ensures Prepared(params, Join(a, b, c, d, p + e)) && SetInputFormat(input, v, ok) in Join(a, b, c, d, p + e)
  {
    hide SetUpFor;
    var seg, before := Join(a, b, c, d, p + e), a + b + c + d;
    assert seg == before + p + e;
    forall i | 0 <= i < |seg| ensures seg[i].SetInputFormat? ==> i == |before| + |p| {
      if i < |before| {
        assert seg[i] in before;
      } else if i < |before| + |p| {
        assert seg[i] in p;
      } else if i > |before| + |p| {
        assert seg[i] in e[1..];
      }
    }
    assert seg[|before|..|before| + |p|] == p;
    assert seg[|before| + |p|] == e[0];
  }

  lemma {:induction false} OtherCall(params: Params, seg: seq<Call>, c: Call)
    requires (seg == [] || Prepared(params, seg)) && !c.SetInputFormat?
    ensures Prepared(params, seg) && Prepared(params, seg + [c])
  {
    hide SetUpFor;
    forall i | 0 <= i < |seg| && seg[i].SetInputFormat?
      ensures exists k :: 0 <= k <= i && SetUpFor(params, seg[i].video.interlaced, (seg + [c])[k..i])
    {
      var k :| 0 <= k <= i && SetUpFor(params, seg[i].video.interlaced, seg[k..i]);
      assert (seg + [c])[k..i] == seg[k..i];
    }
  }

  lemma {:induction false} Programmed(input: VideoInput, was: Option<VideoInput>, a: seq<Call>, b: seq<Call>,
                                      c: seq<Call>, d: seq<Call>, p: seq<Call>, e: seq<Call>, v: Video, ok: bool,
                                      errmsg: string)
    requires Polled(input, was, a, b, d) && Asked(input, c) && forall x | x in p :: SetsUp(x)
    requires GetParams(input, true, v) in d && ValidResolution(v.width, v.height) && Chosen(input, v, ok, e)
    ensures InitRecord(input, was, Join(a, b, c, d, p + e), ok)
    ensures Message(errmsg, Join(a, b, c, d, p + e)) == errmsg
  {
    hide Consistent, GaveUp, Message, Asked;
    assert forall x | x in a :: x == SetInput(input);
    assert forall x | x in e :: x == e[0] || x in e[1..];
    ProgrammedIsConsistent(input, c, d, p, e, v, ok);
    ProgrammedEnd(a + b + c + d + p, e, ok, errmsg);
    assert (a + b + c + d + p) + e == Join(a, b, c, d, p + e);
    if ok {
      ProgrammedIsFormatted(input, c + p, e, v);
      assert c + p + e == c + (p + e);
    }
    AskedIsQuiet(input, c, p + e);
    Joined(input, was, a, b, c, d, p + e, ok);
  }

  lemma {:induction false} ProgrammedIsFormatted(input: VideoInput, before: seq<Call>, e: seq<Call>, v: Video)
    requires ValidResolution(v.width, v.height) && Chosen(input, v, true, e)
    ensures Formatted(before + e)
  {
    assert Formats(e[0]) && e[1..][0] == SetOutputBusMode(BusFor(e[0]));
    assert e[0] in before + e && e[1] in before + e;
  }

  lemma {:induction false} AskedIsQuiet(input: VideoInput, c: seq<Call>, e: seq<Call>)
    requires Asked(input, c)
    requires forall x | x in e :: x.SetInputFormat? || x.SetOutputBusMode? || x.InitAudioCodec? || SetsUp(x)
    ensures forall x | x in c + e ::
      !x.HasInputSignal? && !x.GetParams? && !x.SetInput? && !x.StartCapture? && !x.StopCapture?
  {
  }

  lemma {:induction false} ProgrammedEnd(before: seq<Call>, e: seq<Call>, ok: bool, errmsg: string)
    requires e != [] && e[0].SetInputFormat? && e[0].ok == ok
    requires !ok ==> |e| == 1
    requires ok ==> |e| > 1 && forall x | x in e[1..] :: x.SetOutputBusMode? || x.InitAudioCodec?
    ensures Message(errmsg, before + e) == errmsg
    ensures !ok ==> GaveUp(before + e)
  {
    assert (before + e)[|before + e| - 1] == e[|e| - 1];
    if ok {
      var last := e[1..][|e| - 2];
      assert last in e[1..] && (before + e)[|before + e| - 1] == last;
    }
  }

  lemma {:induction false} ProgrammedIsConsistent(input: VideoInput, c: seq<Call>, d: seq<Call>, p: seq<Call>,
                                                  e: seq<Call>, v: Video, ok: bool)
    requires Asked(input, c) && forall x | x in p :: SetsUp(x)
    requires GetParams(input, true, v) in d && ValidResolution(v.width, v.height) && Chosen(input, v, ok, e)
    ensures Consistent(input, c + (p + e), c + d + (p + e))
  {
    var seg := c + d + (p + e);
    forall x | x in c + (p + e) ensures Consistent(input, [x], seg) {
      assert e[0] in p + e && e[0] in seg;
      if x in c {
        assert Consistent(input, c, c);
      } else if x !in p && x != e[0] {
        assert x in e[1..];
        assert ok && Formats(e[0]);
      }
    }
    assert forall x | x in c + (p + e) :: x in [x];
  }

  lemma {:induction false} HdmiByCode(was: Option<VideoInput>, a: seq<Call>, b: seq<Call>, vic: int, mode: BusMode,
                                      errmsg: string, params: Params)
    requires Polled(Hdmi, was, a, b, []) && vic > 0
    requires mode == if vic in {6, 7, 21, 22} then Bus656x10Dc else Bus422x10x2
    ensures
      var seg := a + b + [GetAudioParams, GetHdmiFormat(vic), SetHdmiFormat(vic, true)] + [SetOutputBusMode(mode)];
      InitRecord(Hdmi, was, seg, true) && Message(errmsg, seg) == errmsg && Prepared(params, seg)
  {
    hide Consistent, Formatted, Prepared;
    var c, f := [GetAudioParams, GetHdmiFormat(vic)], SetHdmiFormat(vic, true);
    var e := [f, SetOutputBusMode(mode)];
    CodeIsConsistent(c, e, vic, mode);
    assert forall x | x in a :: x == SetInput(Hdmi);
    NothingToSetUp(params, a, b, c, [], e);
    Joined(Hdmi, was, a, b, c, [], e, true);
    HdmiJoin(a, b, c[0], c[1], f, e[1]);
  }

  lemma {:induction false} CodeIsConsistent(c: seq<Call>, e: seq<Call>, vic: int, mode: BusMode)
    requires vic > 0 && mode == if vic in {6, 7, 21, 22} then Bus656x10Dc else Bus422x10x2
    requires c == [GetAudioParams, GetHdmiFormat(vic)] && e == [SetHdmiFormat(vic, true), SetOutputBusMode(mode)]
    ensures Consistent(Hdmi, c + e, c + [] + e) && Formatted(c + e)
  {
    var f := e[0];
    assert Formats(f) && BusFor(f) == mode;
    assert c + [] == c;
    assert f in c + e && e[1] in c + e && c[1] in c + e;
  }

  lemma {:induction false} HdmiJoin(a: seq<Call>, b: seq<Call>, w: Call, x: Call, y: Call, z: Call)
    ensures a + b + [w, x, y] + [z] == Join(a, b, [w, x], [], [y, z])
  {
    assert [w, x, y] + [z] == [w, x] + [y, z];
    assert [] + [y, z] == [y, z];
    assert a + b + ([w, x] + [y, z]) == a + (b + ([w, x] + [y, z]));
  }

  // ---------------------------------------------------------------- starts and stops

  /** The record of StartEncoding: an init, and one startCapture exactly if the init succeeded. */
  predicate StartRecord(input: VideoInput, was: Option<VideoInput>, seg: seq<Call>, now: Option<VideoInput>, ok: bool)
  {
    if input.Sdi? then seg == [] && now == was && !ok
    else
      var started := seg != [] && seg[|seg| - 1].StartCapture?;
      && InitRecord(Target(input), was, if started then seg[..|seg| - 1] else seg, started)
      && now == (if started then Some(Target(input)) else was)
      && ok == (started && seg[|seg| - 1].ok)
  }

  datatype Step = Started(seg: seq<Call>, ok: bool) | Stopped(seg: seq<Call>, ok: bool)

  /** `marks[i]` is m_video_initialized before step `i`. */
  predicate Session(input: VideoInput, steps: seq<Step>, marks: seq<Option<VideoInput>>)
  {
    && |marks| == |steps| + 1 && marks[0] == None
    && forall i | 0 <= i < |steps| :: SessionStep(input, marks[i], steps[i], marks[i + 1])
  }

  predicate SessionStep(input: VideoInput, was: Option<VideoInput>, s: Step, now: Option<VideoInput>)
  {
    match s
    case Started(seg, ok) => StartRecord(input, was, seg, now, ok)
    case Stopped(seg, ok) => seg == [StopCapture(ok)] && now == was
  }

  function AllCalls(steps: seq<Step>): seq<Call> {
    if steps == [] then [] else AllCalls(steps[..|steps| - 1]) + steps[|steps| - 1].seg
  }

  lemma {:induction false} NewSession(input: VideoInput)
    ensures Session(input, [], [None]) && AllCalls([]) == []
  {
  }

  lemma {:induction false} StartStep(input: VideoInput, was: Option<VideoInput>, s: Step, now: Option<VideoInput>)
    requires s.Started? && StartRecord(input, was, s.seg, now, s.ok)
    ensures SessionStep(input, was, s, now)
  {
  }

  lemma {:induction false} StopStep(input: VideoInput, was: Option<VideoInput>, s: Step)
    requires s.Stopped? && s.seg == [StopCapture(s.ok)]
    ensures SessionStep(input, was, s, was)
  {
  }

  lemma {:induction false} SessionGrows(input: VideoInput, steps: seq<Step>, marks: seq<Option<VideoInput>>, s: Step,
                                        now: Option<VideoInput>)
    requires Session(input, steps, marks) && SessionStep(input, marks[|steps|], s, now)
    ensures Session(input, steps + [s], marks + [now]) && AllCalls(steps + [s]) == AllCalls(steps) + s.seg
  {
    hide SessionStep;
    assert (steps + [s])[..|steps|] == steps;
  }

  /** Each startCapture follows, in the same call of StartEncoding, an accepted setInputFormat with
      a valid resolution that the receiver had reported, or an accepted setHDMIFormat with the
      positive code it had reported; it is the last call, and each polling loop is bounded. */
  lemma {:induction false} CaptureIsPrepared(input: VideoInput, steps: seq<Step>, marks: seq<Option<VideoInput>>,
                                             i: nat, k: nat)
    requires Session(input, steps, marks) && i < |steps| && k < |steps[i].seg|
    ensures steps[i].seg[k].StartCapture? ==>
      && steps[i].Started? && k == |steps[i].seg| - 1 && steps[i].ok == steps[i].seg[k].ok
      && exists j :: 0 <= j < k && Reported(steps[i].seg[j], steps[i].seg[..k]) && AcceptedFormat(steps[i].seg[j])
  {
    hide SessionStep, Reported, Formats;
    assert SessionStep(input, marks[i], steps[i], marks[i + 1]);
    if steps[i].seg[k].StartCapture? {
      var j := FormatBefore(input, marks[i], steps[i], marks[i + 1], k);
      FormatsAreThese(steps[i].seg[j]);
    }
  }

  /** The encoder took it: a positive HDMI code, or one of these resolutions. */
  predicate AcceptedFormat(c: Call) {
    || (c.SetHdmiFormat? && c.ok && c.vic > 0)
    || (c.SetInputFormat? && c.ok && c.video.width in {1920, 1280, 720} && c.video.height in {1080, 720, 576, 480})
  }

  lemma {:induction false} FormatBefore(input: VideoInput, was: Option<VideoInput>, s: Step, now: Option<VideoInput>,
                                        k: nat) returns (j: nat)
    requires SessionStep(input, was, s, now) && k < |s.seg| && s.seg[k].StartCapture?
    ensures s.Started? && k == |s.seg| - 1 && s.ok == s.seg[k].ok
    ensures j < k && Formats(s.seg[j]) && Reported(s.seg[j], s.seg[..k])
  {
    hide InitRecord, Formats, Reported;
    var last := |s.seg| - 1;
    if k < last {
      CapturesLast(input, was, s, now, k);
    }
    j := FormatIn(Target(input), was, s.seg[..last]);
  }

  lemma {:induction false} CapturesLast(input: VideoInput, was: Option<VideoInput>, s: Step, now: Option<VideoInput>,
                                        k: nat)
    requires SessionStep(input, was, s, now) && k < |s.seg| && s.seg[k].StartCapture?
    ensures k == |s.seg| - 1
  {
    hide Switched, Consistent, Bounded, Formatted, GaveUp;
    var last := |s.seg| - 1;
    assert forall n | 0 <= n < last :: s.seg[n] == s.seg[..last][n] && s.seg[..last][n] in s.seg[..last];
    assert s.seg[k] in s.seg;
  }

  lemma {:induction false} FormatIn(input: VideoInput, was: Option<VideoInput>, body: seq<Call>) returns (j: nat)
    requires InitRecord(input, was, body, true)
    ensures j < |body| && Formats(body[j]) && Reported(body[j], body)
  {
    hide Switched, Bounded, GaveUp, BusFor, NoCapture;
    var f :| f in body && Formats(f);
    j :| 0 <= j < |body| && body[j] == f;
  }

  /** Which calls tell the encoder a format that it takes. */
  lemma {:induction false} FormatsAreThese(c: Call)
    ensures Formats(c) <==> AcceptedFormat(c)
  {
  }

  /** The receiver had reported the format. */
  predicate Reported(f: Call, before: seq<Call>)
  {
    match f
    case SetInputFormat(input, v, _) => GetParams(input, true, v) in before
    case SetHdmiFormat(vic, _) => GetHdmiFormat(vic) in before
    case _ => false
  }

  lemma {:induction false} PollsAreBounded(input: VideoInput, steps: seq<Step>, marks: seq<Option<VideoInput>>,
                                           i: nat, k: Kind)
    requires Session(input, steps, marks) && i < |steps|
    ensures Count(k, steps[i].seg) <= 300
  {
    var seg := steps[i].seg;
    assert SessionStep(input, marks[i], steps[i], marks[i + 1]);
    if seg != [] && seg[|seg| - 1].StartCapture? {
      var body := seg[..|seg| - 1];
      assert body + [seg[|seg| - 1]] == seg;
      CountAppend(k, body, [seg[|seg| - 1]]);
      CountAtMost(k, [seg[|seg| - 1]]);
    } else if steps[i].Stopped? {
      CountAtMost(k, seg);
    }
  }

  lemma {:induction false} MarkStays(input: VideoInput, steps: seq<Step>, marks: seq<Option<VideoInput>>, i: nat,
                                     j: nat)
    requires Session(input, steps, marks) && i <= j < |marks| && marks[i] == Some(Target(input))
    ensures marks[j] == Some(Target(input))
    decreases j
  {
    if i == j {
    } else {
      MarkStays(input, steps, marks, i, j - 1);
      assert SessionStep(input, marks[j - 1], steps[j - 1], marks[j]);
    }
  }

  lemma {:induction false} StaysSwitched(input: VideoInput, seg: seq<Call>, now: Option<VideoInput>, ok: bool)
    requires StartRecord(input, Some(Target(input)), seg, now, ok)
    ensures forall c | c in seg :: !c.SetInput?
  {
    hide Consistent, Bounded, Formatted;
    if seg != [] && seg[|seg| - 1].StartCapture? {
      assert seg == seg[..|seg| - 1] + [seg[|seg| - 1]];
    }
  }

  /** After the first successful init no later call of a session switches the input again. */
  lemma {:induction false} InputSwitchedOnce(input: VideoInput, steps: seq<Step>, marks: seq<Option<VideoInput>>,
                                             i: nat, j: nat)
    requires Session(input, steps, marks) && i < j < |steps|
    requires steps[i].seg != [] && steps[i].seg[|steps[i].seg| - 1].StartCapture?
    ensures forall c | c in steps[j].seg :: !c.SetInput?
  {
    hide InitRecord;
    assert SessionStep(input, marks[i], steps[i], marks[i + 1]);
    MarkStays(input, steps, marks, i + 1, j);
    assert SessionStep(input, marks[j], steps[j], marks[j + 1]);
    if steps[j].Started? {
      StaysSwitched(input, steps[j].seg, marks[j + 1], steps[j].ok);
    }
  }

  // ---------------------------------------------------------------- what the answers lead to, in figures

  lemma {:induction false} FirstUsableIs(f: nat -> Answer, n: nat, r: nat)
    requires r < 300 && forall k | n <= k < n + r ::
      !(f(k).ok && f(k).video.width in {1920, 1280, 720} && f(k).video.height in {1080, 720, 576, 480})
    requires var a := f(n + r); a.ok && a.video.width in {1920, 1280, 720} && a.video.height in {1080, 720, 576, 480}
    ensures Reporting(f, n) == ByReport(f(n + r).video)
  {
    hide FirstUsable;
    FirstUsableMeans(f, n, 300);
    assert Usable(f(n + r)) && forall k | n <= k < n + r :: !Usable(f(k));
  }

  lemma {:induction false} FirstYesIs(f: nat -> Answer, n: nat, s: nat)
    requires s < 300 && f(n + s).ok && forall k | n <= k < n + s :: !f(k).ok
    ensures FirstYes(f, n, 300) == Some(s)
  {
    hide FirstYes;
    FirstYesMeans(f, n, 300);
  }

  /** Composite and component: if try `s` of the first 300 sees a signal, and of the next 300 reports
      number `r` is the first that is ok with one of these resolutions, that report is set as the
      format. */
  lemma {:induction false} AnalogReachesFormat(input: VideoInput, f: nat -> Answer, n: nat, s: nat, r: nat)
    requires input.Cvbs? || input.Component?
    requires s < 300 && f(n + s).ok && forall k | n <= k < n + s :: !f(k).ok
    requires r < 300 && forall k | n + s + 1 <= k < n + s + 1 + r ::
      !(f(k).ok && f(k).video.width in {1920, 1280, 720} && f(k).video.height in {1080, 720, 576, 480})
    requires var a := f(n + s + 1 + r);
      a.ok && a.video.width in {1920, 1280, 720} && a.video.height in {1080, 720, 576, 480}
    ensures Leading(input, f, n) == ByReport(f(n + s + 1 + r).video)
  {
    hide FirstYes, Reporting;
    FirstYesIs(f, n, s);
    FirstUsableIs(f, n + s + 1, r);
  }

  /** HDMI: a positive code that the encoder takes decides; otherwise the reports do, after two calls
      for the code and one more if it was tried. */
  lemma {:induction false} HdmiReachesFormat(f: nat -> Answer, n: nat, s: nat, r: nat)
    requires s < 300 && f(n + s).ok && forall k | n <= k < n + s :: !f(k).ok
    ensures var vic := f(n + s + 2).code;
      && (vic > 0 && f(n + s + 3).ok ==> Leading(Hdmi, f, n) == ByCode(vic))
      && var m := n + s + (if vic > 0 then 4 else 3);
         !(vic > 0 && f(n + s + 3).ok)
         && r < 300 && (forall k | m <= k < m + r ::
              !(f(k).ok && f(k).video.width in {1920, 1280, 720} && f(k).video.height in {1080, 720, 576, 480}))
         && f(m + r).ok && f(m + r).video.width in {1920, 1280, 720} && f(m + r).video.height in {1080, 720, 576, 480}
         ==> Leading(Hdmi, f, n) == ByReport(f(m + r).video)
  {
    hide FirstYes, Reporting;
    FirstYesIs(f, n, s);
    var vic := f(n + s + 2).code;
    var m := n + s + (if vic > 0 then 4 else 3);
    if r < 300 && (forall k | m <= k < m + r ::
        !(f(k).ok && f(k).video.width in {1920, 1280, 720} && f(k).video.height in {1080, 720, 576, 480}))
      && f(m + r).ok && f(m + r).video.width in {1920, 1280, 720} && f(m + r).video.height in {1080, 720, 576, 480} {
      FirstUsableIs(f, m, r);
    }
  }

  /** Without a signal in 300 tries, or without such a report in 300, no format is reached. */
  lemma {:induction false} NoFormatReached(input: VideoInput, f: nat -> Answer, n: nat, s: nat)
    requires input.Cvbs? || input.Component?
    ensures (forall k | n <= k < n + 300 :: !f(k).ok) ==>
      Leading(input, f, n) == Nowhere && Leading(Hdmi, f, n) == Nowhere
    ensures
      && s < 300 && f(n + s).ok && (forall k | n <= k < n + s :: !f(k).ok)
      && (forall k | n + s + 1 <= k < n + s + 301 ::
            !(f(k).ok && f(k).video.width in {1920, 1280, 720} && f(k).video.height in {1080, 720, 576, 480}))
      ==> Leading(input, f, n) == Nowhere
  {
    hide FirstYes, FirstUsable;
    FirstYesMeans(f, n, 300);
    if s < 300 && f(n + s).ok && forall k | n <= k < n + s :: !f(k).ok {
      FirstYesIs(f, n, s);
      FirstUsableMeans(f, n + s + 1, 300);
    }
  }

  /** The same for HDMI with a signal and without a code that the encoder takes. */
  lemma {:induction false} NoHdmiFormatReached(f: nat -> Answer, n: nat, s: nat)
    requires s < 300 && f(n + s).ok && forall k | n <= k < n + s :: !f(k).ok
    requires !(f(n + s + 2).code > 0 && f(n + s + 3).ok)
    requires var m := n + s + (if f(n + s + 2).code > 0 then 4 else 3);
      forall k | m <= k < m + 300 ::
        !(f(k).ok && f(k).video.width in {1920, 1280, 720} && f(k).video.height in {1080, 720, 576, 480})
    ensures Leading(Hdmi, f, n) == Nowhere
  {
    hide FirstYes, FirstUsable;
    FirstYesIs(f, n, s);
    FirstUsableMeans(f, n + s + (if f(n + s + 2).code > 0 then 4 else 3), 300);
  }

  /** The bus mode for each format. */
  lemma {:induction false} BusModes(v: Video, vic: int, ok: bool)
    ensures BusFor(SetInputFormat(Cvbs, v, ok)) == Bus656x10
    ensures BusFor(SetInputFormat(Hdmi, v, ok)) == Bus422x10x2
    ensures BusFor(SetInputFormat(Component, v, ok)) ==
      if v.interlaced && v.height == 480 && 59.5 <= v.vFreq < 60.5 then Bus656x10Dc
      else if v.interlaced && v.height == 576 && 49.5 <= v.vFreq < 50.5 then Bus656x10Dc
      else Bus422x10x2
    ensures BusFor(SetHdmiFormat(vic, ok))
      == if vic == 6 || vic == 7 || vic == 21 || vic == 22 then Bus656x10Dc else Bus422x10x2
  {
  }

  /** The inputs as StartEncoding takes them: an unknown one is HDMI. */
  lemma {:induction false} InputsAre(input: VideoInput, code: int)
    ensures !input.Other? ==> Target(input) == input
    ensures Target(Other(code)) == Hdmi
  {
  }

  /** The last port setting of an audio set-up, by the audio input and by whether there is a digital
      receiver. */
  lemma {:induction false} AudioPorts(p: Params, seg: seq<Call>)
    requires AudioSetUp(p, seg)
    ensures p.audio.LineIn? ==> seg == [if p.boost then SetPortE(24, 0) else SetPortE(8, 16)]
    ensures p.audio.Spdif? ==>
      && |seg| == 2 && seg[0].ResetDigital? && seg[0].optical
      && seg[1] == if seg[0].ok then SetPortE(16, 0) else if p.boost then SetPortE(24, 0) else SetPortE(8, 16)
    ensures p.audio.HdmiAudio? ==>
      && |seg| == 2 && seg[0].ResetDigital? && !seg[0].optical
      && seg[1] == if !seg[0].ok then SetPortE(0, 24) else if p.ac3 then SetPortE(16, 0) else SetPortE(0, 0)
  {
  }

  /** Coding mode and flipping are for interlaced pictures only. */
  lemma {:induction false} FieldsAre(p: Params)
    ensures FieldCalls(p, false) == []
    ensures WriteCodingMode(if p.coding.Some? then p.coding.value else 0) in FieldCalls(p, true) <==> p.coding.Some?
    ensures FlipFields in FieldCalls(p, true) <==> p.flip
    ensures |FieldCalls(p, true)| == (if p.coding.Some? then 1 else 0) + (if p.flip then 1 else 0)
  {
    assert p.flip ==> FieldCalls(p, true)[|FieldCalls(p, true)| - 1] == FlipFields;
    assert p.coding.Some? ==> FieldCalls(p, true)[0] == WriteCodingMode(p.coding.value);
  }
}
