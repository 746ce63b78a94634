/**
  What the registry promises: the first binding since the last successful load wins, over any
  history, and loading undoes printing exactly for the maps that the format can carry.
*/
module RegistryTheorems {
  import opened Option
  import opened CNumber
  import opened Text
  import opened Registry

  // ---------------------------------------------------------------- histories

  /** Binding `i` is the first one of `name`. */
  predicate IsFirst(bs: seq<Binding>, name: string, i: nat) {
    i < |bs| && bs[i].0 == name && forall j | 0 <= j < i :: bs[j].0 != name
  }

  lemma {:induction false} FirstValueIsFirst(bs: seq<Binding>, name: string, i: nat)
    requires IsFirst(bs, name, i)
    ensures FirstValue(bs, name) == Some(bs[i].1)
  {
    if i == 0 {
    } else {
      FirstValueIsFirst(bs[1..], name, i - 1);
    }
  }

  lemma {:induction false} FirstValueOfNone(bs: seq<Binding>, name: string)
    requires forall i | 0 <= i < |bs| :: bs[i].0 != name
    ensures FirstValue(bs, name) == None
  {
    if bs == [] {
    } else {
      FirstValueOfNone(bs[1..], name);
    }
  }

  /** What a read returns after a history: the first value bound since the last successful load. */
  lemma {:induction false} ReadReturnsFirst(history: seq<Event>, name: string)
    ensures var reg := InsertAll(map[], Bound(history)); var bs := Bound(history);
      && (name in reg <==> exists i :: 0 <= i < |bs| && bs[i].0 == name)
      && (forall i | 0 <= i < |bs| && IsFirst(bs, name, i) :: name in reg && reg[name] == bs[i].1)
  {
    var bs := Bound(history);
    InsertAllKeeps(map[], bs, name);
    forall i | 0 <= i < |bs| && IsFirst(bs, name, i) ensures FirstValue(bs, name) == Some(bs[i].1) {
      FirstValueIsFirst(bs, name, i);
    }
    if forall i | 0 <= i < |bs| :: bs[i].0 != name {
      FirstValueOfNone(bs, name);
    } else {
      FirstExists(bs, name);
    }
  }

  lemma {:induction false} FirstExists(bs: seq<Binding>, name: string)
    requires exists i :: 0 <= i < |bs| && bs[i].0 == name
    ensures FirstValue(bs, name).Some?
  {
    if bs[0].0 != name {
      var i :| 0 <= i < |bs| && bs[i].0 == name;
      assert bs[1..][i - 1].0 == name;
      FirstExists(bs[1..], name);
    }
  }

  /** Until the next successful load neither a write nor a failed load changes a bound name. */
  lemma {:induction false} BoundNamesStay(history: seq<Event>, later: seq<Event>, name: string)
    requires FirstValue(Bound(history), name).Some?
    requires forall i | 0 <= i < |later| :: !later[i].LoadedText?
    ensures FirstValue(Bound(history + later), name) == FirstValue(Bound(history), name)
    decreases |later|
  {
    if later == [] {
      assert history + later == history;
    } else {
      var before, e := later[..|later| - 1], later[|later| - 1];
      BoundNamesStay(history, before, name);
      assert history + later == (history + before) + [e];
      EventBindings(history + before, e);
      if e.Wrote? {
        FirstValueAppend(Bound(history + before), (e.name, e.value), name);
      }
    }
  }

  lemma {:induction false} FirstValueAppend(bs: seq<Binding>, b: Binding, name: string)
    requires FirstValue(bs, name).Some?
    ensures FirstValue(bs + [b], name) == FirstValue(bs, name)
  {
    if bs[0].0 != name {
      assert (bs + [b])[1..] == bs[1..] + [b];
      FirstValueAppend(bs[1..], b, name);
    }
  }

  // ---------------------------------------------------------------- printing and loading

  /** A name that a line can carry. */
  predicate Clean(name: string) { '=' !in name && '\n' !in name }

  function Line(e: Binding): string { e.0 + "=" + Decimal(e.1) }

  /** One `name=value` line for each entry. */
  function Print(entries: seq<Binding>): string {
    if entries == [] then "" else Line(entries[0]) + "\n" + Print(entries[1..])
  }

  /** The entries list the map: all of its pairs and no others, in some order. */
  predicate Lists(entries: seq<Binding>, m: map<string, nat>)
  {
    && (forall i | 0 <= i < |entries| :: entries[i].0 in m && m[entries[i].0] == entries[i].1)
    && (forall n | n in m :: exists i :: 0 <= i < |entries| && entries[i].0 == n)
  }

  predicate Carried(e: Binding) { Clean(e.0) && e.1 < TWO_TO_32 }

  lemma {:induction false} DecimalHasNo(n: nat, c: char)
    requires !IsDigit(c)
    ensures c !in Decimal(n)
  {
  }

  lemma {:induction false} CutAt(s: string, c: char, t: string)
    requires c !in s
    ensures var all := s + [c] + t;
      Find(all, c) == |s| < |all| && all[..|s|] == s && all[|s| + 1..] == t
  {
    FindAt(s, c, t);
  }

  lemma {:induction false} LineIsParsed(e: Binding)
    requires Carried(e)
    ensures LineBinding(Line(e)) == Some(e) && '\n' !in Line(e)
  {
    hide Strtoul, Decimal, Find;
    CutAt(e.0, '=', Decimal(e.1));
    assert Line(e) == e.0 + ['='] + Decimal(e.1);
    ReadsWhatWasPrinted(e.1);
    DecimalHasNo(e.1, '\n');
  }

  lemma {:induction false} PrintIsParsed(entries: seq<Binding>)
    requires forall i | 0 <= i < |entries| :: Carried(entries[i])
    ensures BindingsOf(SplitLines(Print(entries))) == entries
  {
    hide LineBinding, Line, Split, Carried;
    if entries == [] {
      NothingPrinted();
    } else {
      var line, rest := Line(entries[0]), Print(entries[1..]);
      LineIsParsed(entries[0]);
      PrintIsParsed(entries[1..]);
      OneLineMore(line, rest);
      assert [entries[0]] + entries[1..] == entries;
    }
  }

  lemma {:induction false} NothingPrinted()
    ensures BindingsOf(SplitLines("")) == []
  {
    assert BindingsOf([""]) == BindingsOf([""][1..]);
  }

  lemma {:induction false} OneLineMore(line: string, rest: string)
    requires '\n' !in line
    ensures BindingsOf(SplitLines(line + "\n" + rest))
      == (if LineBinding(line).Some? then [LineBinding(line).value] else []) + BindingsOf(SplitLines(rest))
  {
    hide LineBinding, Split;
    SplitFirst(line, '\n', rest);
    assert line + "\n" + rest == line + ['\n'] + rest;
    assert ([line] + SplitLines(rest))[1..] == SplitLines(rest);
  }

  /** Every name and value that loading can produce. */
  lemma {:induction false} LoadedIsCarried(lines: seq<string>)
    requires forall i | 0 <= i < |lines| :: '\n' !in lines[i]
    ensures forall i | 0 <= i < |BindingsOf(lines)| :: Carried(BindingsOf(lines)[i])
  {
    hide Strtoul;
    if lines == [] {
    } else {
      LoadedIsCarried(lines[1..]);
      var b := LineBinding(lines[0]);
      if b.Some? {
        assert b.value.0 == lines[0][..Find(lines[0], '=')];
        assert Carried(b.value);
      }
    }
  }

  lemma {:induction false} ListedIsLoaded(entries: seq<Binding>, m: map<string, nat>)
    requires Lists(entries, m)
    ensures InsertAll(map[], entries) == m
  {
    var r := InsertAll(map[], entries);
    forall n ensures (n in r <==> n in m) && (n in m ==> r[n] == m[n]) {
      InsertAllKeeps(map[], entries, n);
      if n in m {
        FirstExists(entries, n);
      }
      if FirstValue(entries, n).Some? {
        FirstValueIsListed(entries, n);
      }
    }
  }

  lemma {:induction false} FirstValueIsListed(bs: seq<Binding>, name: string)
    requires FirstValue(bs, name).Some?
    ensures exists i :: 0 <= i < |bs| && bs[i] == (name, FirstValue(bs, name).value)
  {
    if bs[0].0 == name {
      assert bs[0] == (name, FirstValue(bs, name).value);
    } else {
      FirstValueIsListed(bs[1..], name);
      var i :| 0 <= i < |bs[1..]| && bs[1..][i] == (name, FirstValue(bs, name).value);
      assert bs[i + 1] == (name, FirstValue(bs, name).value);
    }
  }

  /** Loading what was printed, in any order, gives back exactly the map if and only if no name
      contains '=' or a newline and every value fits 32 bits. */
  lemma {:induction false} RoundTrip(entries: seq<Binding>, m: map<string, nat>)
    requires Lists(entries, m)
    ensures Loaded(Print(entries)) == m <==> forall n | n in m :: Clean(n) && m[n] < TWO_TO_32
  {
    if forall n | n in m :: Clean(n) && m[n] < TWO_TO_32 {
      PrintIsParsed(entries);
      ListedIsLoaded(entries, m);
    } else {
      var n :| n in m && !(Clean(n) && m[n] < TWO_TO_32);
      OnlyCarried(Print(entries), n);
    }
  }

  lemma {:induction false} OnlyCarried(text: string, n: string)
    ensures n in Loaded(text) ==> Carried((n, Loaded(text)[n]))
  {
    var bs := BindingsOf(SplitLines(text));
    PartsAreFree(text, '\n');
    LoadedIsCarried(SplitLines(text));
    InsertAllKeeps(map[], bs, n);
    if n in Loaded(text) {
      FirstValueIsListed(bs, n);
    }
  }

  // ---------------------------------------------------------------- what a settings file says

  lemma {:induction false} NoEqualsBindsNothing(line: string)
    ensures LineBinding(line) == None <==> '=' !in line
  {
    if '=' !in line {
      FindNone(line, '=');
    }
  }

  /** A line binds a name exactly if it begins with that name and an equals sign. */
  lemma {:induction false} LineBinds(name: string, line: string)
    requires '=' !in name
    ensures name + "=" <= line <==> LineBinding(line).Some? && LineBinding(line).value.0 == name
    ensures name + "=" <= line ==> LineBinding(line).value.1 == Strtoul(line[|name| + 1..]) % 0x1_0000_0000
  {
    hide Strtoul, Find;
    var i := Find(line, '=');
    if i < |line| {
      assert line[..i + 1] == line[..i] + "=";
    }
    if name + "=" <= line {
      assert line == name + ['='] + line[|name| + 1..];
      CutAt(name, '=', line[|name| + 1..]);
    }
  }

  /** The value of a name in a loaded file: the number on the first line that begins with the name
      and an equals sign; without such a line the name is not bound. */
  lemma {:induction false} LoadedReads(lines: seq<string>, name: string, i: nat)
    requires lines != [] && (forall l | l in lines :: '\n' !in l) && '=' !in name && i <= |lines|
    requires forall j | 0 <= j < i :: !(name + "=" <= lines[j])
    ensures var reg := Loaded(Join(lines, '\n'));
      && (i == |lines| ==> name !in reg)
      && (i < |lines| && name + "=" <= lines[i] ==>
            name in reg && reg[name] == Strtoul(lines[i][|name| + 1..]) % 0x1_0000_0000)
  {
    hide LineBinding, Strtoul, Split, Join, InsertAll, BindingsOf;
    SplitUndoesJoin(lines, '\n');
    InsertAllKeeps(map[], BindingsOf(lines), name);
    FirstLineBinds(lines, name, i);
  }

  lemma {:induction false} FirstLineBinds(lines: seq<string>, name: string, i: nat)
    requires '=' !in name && i <= |lines|
    requires forall j | 0 <= j < i :: !(name + "=" <= lines[j])
    ensures i == |lines| ==> FirstValue(BindingsOf(lines), name) == None
    ensures i < |lines| && name + "=" <= lines[i] ==>
      FirstValue(BindingsOf(lines), name) == Some(Strtoul(lines[i][|name| + 1..]) % 0x1_0000_0000)
    decreases i
  {
    hide LineBinding, Strtoul;
    if lines != [] {
      LineBinds(name, lines[0]);
      var b := LineBinding(lines[0]);
      if b.Some? {
        assert ([b.value] + BindingsOf(lines[1..]))[1..] == BindingsOf(lines[1..]);
      } else {
        assert [] + BindingsOf(lines[1..]) == BindingsOf(lines[1..]);
      }
      if i > 0 {
        FirstLineBinds(lines[1..], name, i - 1);
      }
    }
  }

  /** Leading space, signs, leading zeros and anything behind the number, such as a carriage return,
      are as in C. */
  lemma {:induction false} LineReads(
      name: string, sp: string, sign: string, zeros: string, n: nat, rest: string)
    requires '=' !in name && AllSpace(sp) && sign in {"", "+", "-"} && AllZeros(zeros) && Stops(rest)
    ensures LineBinding(name + "=" + (sp + (sign + (zeros + Decimal(n) + rest)))) == Some((name,
      if n > 0xFFFF_FFFF_FFFF_FFFF then 0xFFFF_FFFF
      else if sign == "-" then (0x1_0000_0000 - n % 0x1_0000_0000) % 0x1_0000_0000
      else n % 0x1_0000_0000))
  {
    hide LineBinding, Strtoul, Decimal;
    var number := sp + (sign + (zeros + Decimal(n) + rest));
    var line := name + "=" + number;
    StrtoulReads(sp, sign, zeros, n, rest);
    LineBinds(name, line);
    assert line[|name| + 1..] == number;
    if 0 < n <= 0xFFFF_FFFF_FFFF_FFFF {
      NegatedMod(n);
    }
  }

  lemma {:induction false} NegatedMod(n: nat)
    requires 0 < n <= 0xFFFF_FFFF_FFFF_FFFF
    ensures (0x1_0000_0000_0000_0000 - n) % 0x1_0000_0000 == (0x1_0000_0000 - n % 0x1_0000_0000) % 0x1_0000_0000
  {
  }

  /** A file with carriage returns. */
  lemma {:induction false} CarriageReturns()
    ensures var reg := Loaded("a=2\r\n"); "a" in reg && reg["a"] == 2
  {
    hide Loaded, Strtoul, Join, Decimal;
    var lines := ["a=2\r", ""];
    TwoLines(lines[0]);
    LoadedReads(lines, "a", 0);
    StrtoulReads("", "", "", 2, "\r");
    TwoIsTwo();
    assert lines[0][2..] == "2\r";
    assert lines[0] + "\n" == "a=2\r\n";
  }

  lemma {:induction false} TwoLines(line: string)
    ensures Join([line, ""], '\n') == line + "\n"
  {
    assert [line, ""][1..] == [""];
    assert line + ['\n'] + "" == line + "\n";
  }

  lemma {:induction false} TwoIsTwo()
    ensures "" + ("" + ("" + Decimal(2) + "\r")) == "2\r"
  {
    assert Decimal(2) == "2";
  }
}
