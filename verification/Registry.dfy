/**
  The registry of registryif.cpp: an in-place parser over the bytes of a settings file, and a map
  in which the first binding of a name wins.
*/
module Registry {
  import opened Option
  import opened CNumber
  import opened Text

  // ---------------------------------------------------------------- lines and bindings

  /** A C string has no NUL before its end. */
  predicate IsCString(s: string) { '\0' !in s }

  function SplitLines(s: string): seq<string> { Split(s, '\n') }

  type Binding = (string, nat)

  /** What a line binds: the text before its first '=' to the number after it. */
  function LineBinding(line: string): Option<Binding> {
    var i := Find(line, '=');
    if i == |line| then None else Some((line[..i], ToUint32(Strtoul(line[i + 1..]))))
  }

  function BindingsOf(lines: seq<string>): seq<Binding>
  {
    if lines == [] then []
    else (if LineBinding(lines[0]).Some? then [LineBinding(lines[0]).value] else []) + BindingsOf(lines[1..])
  }

  /** std::map::insert: a name that is already bound keeps its value. */
  function Insert(m: map<string, nat>, b: Binding): map<string, nat> {
    if b.0 in m then m else m[b.0 := b.1]
  }

  function InsertAll(m: map<string, nat>, bs: seq<Binding>): map<string, nat>
    decreases |bs|
  {
    if bs == [] then m else InsertAll(Insert(m, bs[0]), bs[1..])
  }

  /** The registry after loading a text. */
  function Loaded(text: string): map<string, nat> { InsertAll(map[], BindingsOf(SplitLines(text))) }

  // ---------------------------------------------------------------- the registry in place

  datatype Event = LoadedText(text: string) | LoadFailed | Wrote(name: string, value: nat)

  /** The bindings made since the last successful load, in order. */
  function Bound(history: seq<Event>): seq<Binding>
  {
    if history == [] then []
    else
      match history[|history| - 1]
      case LoadedText(t) => BindingsOf(SplitLines(t))
      case LoadFailed => Bound(history[..|history| - 1])
      case Wrote(n, v) => Bound(history[..|history| - 1]) + [(n, v)]
  }

  class Store {
    var reg: map<string, nat>
    ghost var history: seq<Event>

    ghost predicate Valid()
      reads this
    {
      reg == InsertAll(map[], Bound(history))
    }

    constructor ()
      ensures Valid() && history == [] && reg == map[]
    {
      reg := map[];
      history := [];
    }

    /** memchr(buf + from, c, len), which may look at those len bytes only. */
    static function Memchr(buf: array<char>, from: nat, c: char, len: nat): (r: Option<nat>)
      requires from + len <= buf.Length
      reads buf
      ensures var i := Find(buf[from..from + len], c); r == if i == len then None else Some(from + i)
      decreases len
    {
      if len == 0 then None
      else if buf[from] == c then Some(from)
      else
        assert buf[from..from + len][1..] == buf[from + 1..from + len];
        Memchr(buf, from + 1, c, len - 1)
    }

    /** wrapRegistryLoad, registryif.cpp:10-57; `file` is what wrapFileLoad delivers. */
    method Load(file: Option<array<char>>) returns (ok: bool)
      requires Valid()
      modifies this
      ensures Valid()
      ensures ok == file.Some?
      ensures ok ==> reg == Loaded(file.value[..]) && history == old(history) + [LoadedText(file.value[..])]
      ensures !ok ==> reg == old(reg) && history == old(history) + [LoadFailed]
    {
      EventBindings(history, LoadFailed);
      if file.None? {
        history := history + [LoadFailed];
        return false;
      }
      Parse(file.value);
      ghost var e := LoadedText(file.value[..]);
      EventBindings(history, e);
      history := history + [e];
      return true;
    }

    /** The body of wrapRegistryLoad once the file is in memory, registryif.cpp:20-53. */
    method Parse(buf: array<char>)
      modifies this`reg
      ensures reg == Loaded(buf[..])
    {
      hide SplitLines, Split, Loaded, AddLine, Memchr, Remaining, Find;
      reg := map[];
      ghost var text := buf[..];
      WholeText(text);
      var p: nat, l: nat := 0, buf.Length;
      var again := true;
      while again
        invariant p + l == buf.Length
        invariant !again ==> l == 0
        invariant Remaining(reg, text[p..]) == Loaded(text)
        decreases l, again
      {
        var n := p;
        var nl: nat;
        RoundAt(reg, text, n);
        var eol := Memchr(buf, n, '\n', l);
        assert buf[n..n + l] == text[n..];
        if eol.None? {
          nl := l;
          p := n + l;
          l := 0;
        } else {
          nl := eol.value - n;
          p := eol.value + 1;
          l := l - (nl + 1);
        }
        BindLine(buf, n, nl);
        again := l != 0;
      }
      NothingLeft(reg, text);
    }

    /** One line of it, registryif.cpp:41-52: nothing without an equals sign. */
    method BindLine(buf: array<char>, n: nat, nl: nat)
      requires n + nl <= buf.Length
      modifies this`reg
      ensures reg == AddLine(old(reg), buf[..][n..n + nl])
    {
      hide AddLine, LineBinding, Strtoul, ToUint32, Memchr, Find, Insert;
      ghost var text := buf[..];
      AddLineAt(reg, text, n, nl);
      assert buf[n..n + nl] == text[n..n + nl];
      var eq := Memchr(buf, n, '=', nl);
      if eq.Some? {
        var v := eq.value + 1;
        var vl := nl - (v - n);
        var name := v - n - 1;
        assert buf[n..n + name] == text[n..n + name];
        assert buf[v..v + vl] == text[v..v + vl];
        reg := Insert(reg, (buf[n..n + name], ToUint32(Strtoul(buf[v..v + vl]))));
      }
    }

    /** hcwGetRegistryDWORD and readDword, registryif.cpp:59-75; None is STATUS_UNSUCCESSFUL. */
    method ReadDword(name: string) returns (r: Option<nat>)
      requires Valid() && IsCString(name)
      ensures r == FirstValue(Bound(history), name)
    {
      InsertAllKeeps(map[], Bound(history), name);
      r := if name in reg then Some(reg[name]) else None;
    }

    /** writeDword, registryif.cpp:78-82. */
    method WriteDword(name: string, value: nat)
      requires Valid() && IsCString(name) && value < TWO_TO_32
      modifies this
      ensures Valid() && history == old(history) + [Wrote(name, value)]
      ensures name in old(reg) ==> reg == old(reg)
      ensures name !in old(reg) ==> reg == old(reg)[name := value]
    {
      InsertLast(map[], Bound(history), (name, value));
      reg := Insert(reg, (name, value));
      history := history + [Wrote(name, value)];
    }
  }

  function AddLine(m: map<string, nat>, line: string): map<string, nat> {
    if LineBinding(line).Some? then Insert(m, LineBinding(line).value) else m
  }

  /** The registry once the rest of the text is added to m. */
  function Remaining(m: map<string, nat>, rest: string): map<string, nat> {
    InsertAll(m, BindingsOf(SplitLines(rest)))
  }

  lemma {:induction false} AddLineCases(m: map<string, nat>, line: string)
    ensures var i := Find(line, '=');
      AddLine(m, line) == if i == |line| then m else Insert(m, (line[..i], ToUint32(Strtoul(line[i + 1..]))))
  {
  }

  lemma {:induction false} ConsLine(m: map<string, nat>, line: string, rest: seq<string>)
    ensures InsertAll(m, BindingsOf([line] + rest)) == InsertAll(AddLine(m, line), BindingsOf(rest))
  {
    hide LineBinding, Insert;
    assert ([line] + rest)[1..] == rest;
    var b := LineBinding(line);
    if b.Some? {
      assert ([b.value] + BindingsOf(rest))[1..] == BindingsOf(rest);
    } else {
      assert [] + BindingsOf(rest) == BindingsOf(rest);
    }
  }

  /** One round of the loop: the first line is added, the rest is left. */
  lemma {:induction false} LineStep(m: map<string, nat>, s: string)
    ensures var i := Find(s, '\n');
      Remaining(m, s) == if i == |s| then AddLine(m, s[..i]) else Remaining(AddLine(m, s[..i]), s[i + 1..])
  {
    hide AddLine, InsertAll, BindingsOf;
    var i := Find(s, '\n');
    var rest := if i == |s| then [] else SplitLines(s[i + 1..]);
    assert s[..|s|] == s;
    assert SplitLines(s) == [s[..i]] + rest;
    ConsLine(m, s[..i], rest);
    NothingBound(AddLine(m, s[..i]));
  }

  lemma {:induction false} NothingBound(m: map<string, nat>)
    ensures InsertAll(m, BindingsOf([])) == m
  {
  }

  lemma {:induction false} WholeText(text: string)
    ensures Remaining(map[], text[0..]) == Loaded(text)
  {
    assert text[0..] == text;
  }

  lemma {:induction false} NothingLeft(m: map<string, nat>, text: string)
    ensures Remaining(m, text[|text|..]) == m
  {
    assert text[|text|..] == [];
    LineStep(m, []);
  }

  /** LineStep and AddLineCases in terms of offsets into the whole text. */
  lemma {:induction false} RoundAt(m: map<string, nat>, text: string, n: nat)
    requires n <= |text|
    ensures var i := Find(text[n..], '\n');
      Remaining(m, text[n..])
      == Remaining(AddLine(m, text[n..n + i]), text[if n + i == |text| then |text| else n + i + 1..])
  {
    hide Remaining, AddLine;
    var i := Find(text[n..], '\n');
    LineStep(m, text[n..]);
    assert text[n..][..i] == text[n..n + i];
    if n + i == |text| {
      NothingLeft(AddLine(m, text[n..n + i]), text);
    } else {
      assert text[n..][i + 1..] == text[n + i + 1..];
    }
  }

  lemma {:induction false} AddLineAt(m: map<string, nat>, text: string, n: nat, nl: nat)
    requires n + nl <= |text|
    ensures var i := Find(text[n..n + nl], '=');
      AddLine(m, text[n..n + nl])
      == if i == nl then m else Insert(m, (text[n..n + i], ToUint32(Strtoul(text[n + i + 1..n + nl]))))
  {
    hide AddLine, Find, Insert, Strtoul, ToUint32;
    var line := text[n..n + nl];
    var i := Find(line, '=');
    AddLineCases(m, line);
    if i < nl {
      assert line[..i] == text[n..n + i] && line[i + 1..] == text[n + i + 1..n + nl];
    }
  }

  lemma {:induction false} EventBindings(h: seq<Event>, e: Event)
    ensures e.LoadedText? ==> InsertAll(map[], Bound(h + [e])) == Loaded(e.text)
    ensures e.LoadFailed? ==> Bound(h + [e]) == Bound(h)
    ensures e.Wrote? ==> Bound(h + [e]) == Bound(h) + [(e.name, e.value)]
  {
    assert (h + [e])[..|h|] == h;
  }

  // ---------------------------------------------------------------- the first binding wins

  /** The value of the first binding of `name`. */
  function FirstValue(bs: seq<Binding>, name: string): Option<nat> {
    if bs == [] then None else if bs[0].0 == name then Some(bs[0].1) else FirstValue(bs[1..], name)
  }

  lemma {:induction false} InsertAllKeeps(m: map<string, nat>, bs: seq<Binding>, name: string)
    ensures InsertAll(m, bs).Keys >= m.Keys
    ensures name in InsertAll(m, bs) <==> name in m || FirstValue(bs, name).Some?
    ensures name in m ==> InsertAll(m, bs)[name] == m[name]
    ensures name !in m && FirstValue(bs, name).Some? ==> InsertAll(m, bs)[name] == FirstValue(bs, name).value
    decreases |bs|
  {
    if bs == [] {
    } else {
      InsertAllKeeps(Insert(m, bs[0]), bs[1..], name);
    }
  }

  lemma {:induction false} InsertLast(m: map<string, nat>, bs: seq<Binding>, b: Binding)
    ensures InsertAll(m, bs + [b]) == Insert(InsertAll(m, bs), b)
    decreases |bs|
  {
    if bs == [] {
      assert ([] + [b])[1..] == [];
    } else {
      assert (bs + [b])[1..] == bs[1..] + [b];
      InsertLast(Insert(m, bs[0]), bs[1..], b);
    }
  }
}
