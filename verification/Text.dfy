/** Splitting a text at a separator, as boost::split and the line loop of the registry do. */
module Text {
  /** The first position of c, or the length. */
  function Find(s: string, c: char): (i: nat)
    ensures i <= |s| && c !in s[..i] && (i < |s| ==> s[i] == c)
  {
    if s == [] || s[0] == c then 0 else 1 + Find(s[1..], c)
  }

  function Split(s: string, c: char): (parts: seq<string>)
    ensures |parts| > 0
    decreases |s|
  {
    var i := Find(s, c);
    if i == |s| then [s] else [s[..i]] + Split(s[i + 1..], c)
  }

  function Join(parts: seq<string>, c: char): string
    requires |parts| > 0
  {
    if |parts| == 1 then parts[0] else parts[0] + [c] + Join(parts[1..], c)
  }

  lemma {:induction false} FindAt(s: string, c: char, t: string)
    requires c !in s
    ensures Find(s + [c] + t, c) == |s|
  {
    var all := s + [c] + t;
    assert all[|s|] == c;
    assert forall i | 0 <= i < |s| :: all[i] == s[i];
  }

  lemma {:induction false} FindNone(s: string, c: char)
    requires c !in s
    ensures Find(s, c) == |s|
  {
  }

  /** Joining the parts gives back the text. */
  lemma {:induction false} JoinUndoesSplit(s: string, c: char)
    ensures Join(Split(s, c), c) == s
    decreases |s|
  {
    var i := Find(s, c);
    if i == |s| {
    } else {
      JoinUndoesSplit(s[i + 1..], c);
      assert ([s[..i]] + Split(s[i + 1..], c))[1..] == Split(s[i + 1..], c);
      assert s == s[..i] + [c] + s[i + 1..];
    }
  }

  /** No part contains the separator. */
  lemma {:induction false} PartsAreFree(s: string, c: char)
    ensures forall p | p in Split(s, c) :: c !in p
    decreases |s|
  {
    var i := Find(s, c);
    assert s[..|s|] == s;
    if i == |s| {
    } else {
      PartsAreFree(s[i + 1..], c);
    }
  }

  lemma {:induction false} SplitFirst(s: string, c: char, t: string)
    requires c !in s
    ensures Split(s + [c] + t, c) == [s] + Split(t, c)
  {
    var all := s + [c] + t;
    FindAt(s, c, t);
    assert all[..|s|] == s && all[|s| + 1..] == t;
  }

  /** The parts are the only ones of that kind. */
  lemma {:induction false} SplitUndoesJoin(parts: seq<string>, c: char)
    requires |parts| > 0 && forall p | p in parts :: c !in p
    ensures Split(Join(parts, c), c) == parts
  {
    if |parts| == 1 {
      FindNone(parts[0], c);
    } else {
      hide Split;
      var rest := Join(parts[1..], c);
      SplitFirst(parts[0], c, rest);
      SplitUndoesJoin(parts[1..], c);
      assert [parts[0]] + parts[1..] == parts;
    }
  }
}
