/**
  The language of the command protocol: keywords, requests and framed status lines.
*/
module Protocol {
  import opened Option
  import opened Text

  // ---------------------------------------------------------------- keywords

  /** What process_command looks for at the start of the first token, in the order of its tests. */
  datatype Keyword =
    | KVersion | KDescription | KHasLock | KSignalStrength | KLockTimeout | KHasTuner
    | KHasPicture | KSendBytes | KXon | KXoff | KIsOpen | KClose | KFlowControl | KStart | KStop
    | KApiVersion | KTuneChannel | KBlockSize

  const PLAIN: seq<Keyword> := [
    KVersion, KDescription, KHasLock, KSignalStrength, KLockTimeout, KHasTuner, KHasPicture, KSendBytes,
    KXon, KXoff, KIsOpen, KClose, KFlowControl, KStart, KStop]

  /** The commands that must have data. */
  const WITH_DATA: seq<Keyword> := [KApiVersion, KTuneChannel, KBlockSize]

  predicate IsPlain(k: Keyword) { !k.KApiVersion? && !k.KTuneChannel? && !k.KBlockSize? }

  function Word(k: Keyword): string
  {
    match k
    case KVersion => "Version?"
    case KDescription => "Description?"
    case KHasLock => "HasLock?"
    case KSignalStrength => "SignalStrengthPercent"
    case KLockTimeout => "LockTimeout"
    case KHasTuner => "HasTuner?"
    case KHasPicture => "HasPictureAttributes?"
    case KSendBytes => "SendBytes"
    case KXon => "XON"
    case KXoff => "XOFF"
    case KIsOpen => "IsOpen?"
    case KClose => "CloseRecorder"
    case KFlowControl => "FlowControl?"
    case KStart => "StartStreaming"
    case KStop => "StopStreaming"
    case KApiVersion => "APIVersion"
    case KTuneChannel => "TuneChannel"
    case KBlockSize => "BlockSize"
  }

  /** boost::starts_with(s, Word(k)) */
  predicate Starts(s: string, k: Keyword) { Word(k) <= s }

  /** The only keyword that a text can start with, read off its first letters. */
  function Guess(s: string): Option<Keyword>
  {
    if |s| < 3 then None
    else
      match s[0]
      case 'V' => Some(KVersion)
      case 'D' => Some(KDescription)
      case 'H' => if |s| < 4 then None else if s[3] == 'L' then Some(KHasLock)
                  else if s[3] == 'T' then Some(KHasTuner) else Some(KHasPicture)
      case 'S' => if s[1] == 'i' then Some(KSignalStrength) else if s[1] == 'e' then Some(KSendBytes)
                  else if s[2] == 'a' then Some(KStart) else Some(KStop)
      case 'L' => Some(KLockTimeout)
      case 'X' => if s[2] == 'N' then Some(KXon) else Some(KXoff)
      case 'I' => Some(KIsOpen)
      case 'C' => Some(KClose)
      case 'F' => Some(KFlowControl)
      case 'A' => Some(KApiVersion)
      case 'T' => Some(KTuneChannel)
      case _ => Some(KBlockSize)
  }

  lemma {:induction false} GuessWord(k: Keyword)
    ensures |Word(k)| >= 3 && Guess(Word(k)) == Some(k)
    ensures Word(k)[0] == 'H' ==> |Word(k)| >= 4
  {
  }

  lemma {:induction false} GuessIsRight(s: string, k: Keyword)
    requires Starts(s, k)
    ensures Guess(s) == Some(k)
  {
    hide Word;
    var w := Word(k);
    GuessWord(k);
    assert s[0] == w[0] && s[1] == w[1] && s[2] == w[2];
    assert |w| >= 4 ==> s[3] == w[3];
  }

  /** No text starts with two different keywords. */
  lemma {:induction false} AtMostOneKeyword(s: string, k: Keyword, k': Keyword)
    requires Starts(s, k) && Starts(s, k')
    ensures k == k'
  {
    GuessIsRight(s, k);
    GuessIsRight(s, k');
  }

  /** The words are prefix-free. */
  lemma {:induction false} PrefixFree(k: Keyword, k': Keyword)
    requires Word(k) <= Word(k')
    ensures k == k'
  {
    AtMostOneKeyword(Word(k'), k, k');
  }

  /** The first test that succeeds, for tests in the order `ks`. */
  function FirstMatch(ks: seq<Keyword>, s: string): Option<Keyword> {
    if ks == [] then None else if Starts(s, ks[0]) then Some(ks[0]) else FirstMatch(ks[1..], s)
  }

  lemma {:induction false} FirstMatchIff(ks: seq<Keyword>, s: string, k: Keyword)
    ensures FirstMatch(ks, s) == Some(k) <==> k in ks && Starts(s, k)
  {
    hide Word;
    if ks == [] {
    } else {
      FirstMatchIff(ks[1..], s, k);
      if Starts(s, ks[0]) && Starts(s, k) {
        AtMostOneKeyword(s, ks[0], k);
      }
    }
  }

  /** The order of the tests is irrelevant. */
  lemma {:induction false} OrderIsIrrelevant(ks: seq<Keyword>, ks': seq<Keyword>, s: string)
    requires forall k :: k in ks <==> k in ks'
    ensures FirstMatch(ks, s) == FirstMatch(ks', s)
  {
    hide Word;
    var m, m' := FirstMatch(ks, s), FirstMatch(ks', s);
    if m.Some? {
      FirstMatchIff(ks, s, m.value);
      FirstMatchIff(ks', s, m.value);
    } else if m'.Some? {
      FirstMatchIff(ks, s, m'.value);
      FirstMatchIff(ks', s, m'.value);
    }
  }

  /** The keyword of a token, found without any order of tests. */
  function Keyed(s: string): (r: Option<Keyword>)
    ensures r.Some? ==> Starts(s, r.value)
    ensures r.None? ==> forall k :: !Starts(s, k)
  {
    var g := Guess(s);
    if g.Some? && Starts(s, g.value) then g
    else
      assert forall k :: !Starts(s, k) by {
        forall k ensures !Starts(s, k) {
          if Starts(s, k) { GuessIsRight(s, k); }
        }
      }
      None
  }

  lemma {:induction false} KeyedBy(s: string, k: Keyword)
    requires Starts(s, k)
    ensures Keyed(s) == Some(k)
  {
    GuessIsRight(s, k);
  }

  /** The tests of process_command, in their order, find the keyword. */
  lemma {:induction false} TestsFindKeyword(s: string)
    ensures FirstMatch(PLAIN + WITH_DATA, s) == Keyed(s)
    ensures forall k :: (k in PLAIN <==> IsPlain(k)) && k in PLAIN + WITH_DATA
  {
    hide Word, Guess;
    var ks := PLAIN + WITH_DATA;
    forall k ensures (k in PLAIN <==> IsPlain(k)) && k in ks { ListedIn(k); }
    var m := FirstMatch(ks, s);
    if m.Some? {
      FirstMatchIff(ks, s, m.value);
      KeyedBy(s, m.value);
    } else if Keyed(s).Some? {
      FirstMatchIff(ks, s, Keyed(s).value);
    }
  }

  lemma {:induction false} ListedIn(k: Keyword)
    ensures (k in PLAIN <==> IsPlain(k)) && k in PLAIN + WITH_DATA
  {
    assert k in PLAIN || k in WITH_DATA;
  }

  // ---------------------------------------------------------------- framing

  /** Commands::send_status: the serial number is sent only from version 2 on. */
  function Frame(version: int, serial: string, status: string): string {
    if version > 1 then serial + ":" + status + "\n" else status + "\n"
  }

  /** The peer's view: without the newline, and from version 2 on cut at the first colon. */
  function Unframe(version: int, line: string): Option<(string, string)>
  {
    if line == [] || line[|line| - 1] != '\n' then None
    else
      var text := line[..|line| - 1];
      if version <= 1 then Some(("", text))
      else
        var i := Find(text, ':');
        if i == |text| then None else Some((text[..i], text[i + 1..]))
  }

  /** A status may contain colons; the serial number of a frame never does. */
  lemma {:induction false} UnframeFrame(version: int, serial: string, status: string)
    requires ':' !in serial
    ensures Unframe(version, Frame(version, serial, status)) == Some((if version > 1 then serial else "", status))
  {
    var line := Frame(version, serial, status);
    if version > 1 {
      FindAt(serial, ':', status);
      var text := serial + [':'] + status;
      assert line[..|line| - 1] == text;
      assert text[..|serial|] == serial && text[|serial| + 1..] == status;
    } else {
      assert line[..|line| - 1] == status;
    }
  }

  function Newlines(s: string): nat {
    if s == [] then 0 else (if s[0] == '\n' then 1 else 0) + Newlines(s[1..])
  }

  lemma {:induction false} NewlinesAppend(a: string, b: string)
    ensures Newlines(a + b) == Newlines(a) + Newlines(b)
  {
    if a == [] {
      assert a + b == b;
    } else {
      assert (a + b)[1..] == a[1..] + b;
      NewlinesAppend(a[1..], b);
    }
  }

  lemma {:induction false} NoNewline(s: string)
    ensures Newlines(s) == 0 <==> '\n' !in s
  {
    if s == [] {
    } else {
      NoNewline(s[1..]);
    }
  }

  /** A frame is a single line exactly when its texts contain no newline. */
  lemma {:induction false} OneLine(version: int, serial: string, status: string)
    ensures Newlines(Frame(version, serial, status)) == 1 <==>
      '\n' !in status && (version > 1 ==> '\n' !in serial)
  {
    NoNewline(serial);
    NoNewline(status);
    NewlinesAppend(status, "\n");
    assert Newlines("\n") == 1 && Newlines(":") == 0;
    if version > 1 {
      NewlinesAppend(serial, ":");
      NewlinesAppend(serial + ":", status + "\n");
      assert serial + ":" + status + "\n" == serial + ":" + (status + "\n");
    }
  }
}
