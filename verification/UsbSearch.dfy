/**
  Finding and holding the capture device on the USB bus, USBif.cpp.  What libusb reports about the
  bus is an arbitrary list; every handle it gives out is new, and the log of opens and closes is
  kept so that the handles can be accounted for.
*/
module UsbSearch {
  import opened Option
  import opened Text

  const BUF_SIZE: nat := 257

  type uint16 = x: int | 0 <= x < 0x1_0000

  /** One entry of the device list: whether its descriptor can be read and it can be opened, and
      the answer to the read of its serial number. */
  datatype UsbDevice = UsbDevice(
    readable: bool, vendor: uint16, product: uint16, serialIndex: nat,
    openable: bool, serial: Option<string>, bus: nat, port: nat)

  // ---------------------------------------------------------------- recognising a device

  /** The names that DevName can give, one for each test in its order. */
  datatype Model =
    | GamingPlusSpdif | GamingPlusSpdifMic | Gaming | AltBling | AltBlingMic | UnknownVersion
    | GamingMic | StreamEez | GamingPlusBlue | Colossus2 | Guess

  /** USBWrapper_t::DevName, test by test. */
  function DevName(vendor: uint16, product: uint16): Option<Model>
  {
    if vendor != 0x2040 then None
    else if product == 0xe504 then Some(GamingPlusSpdif)
    else if product == 0xe505 then Some(GamingPlusSpdifMic)
    else if product == 0xe524 then Some(Gaming)
    else if product == 0xe514 then Some(AltBling)
    else if product == 0xe515 then Some(AltBlingMic)
    else if product == 0xe524 then Some(UnknownVersion)
    else if product == 0xe525 then Some(GamingMic)
    else if product == 0xe52c then Some(StreamEez)
    else if product == 0xe554 then Some(GamingPlusBlue)
    else if product == 0xe585 then Some(Colossus2)
    else if 0xe500 <= product < 0xeffff then Some(Guess)
    else None
  }

  /** A device is recognised exactly by its vendor and a product from 0xe500 up: the upper bound of
      the last test is above every 16-bit product.  The second test for 0xe524 is never reached,
      and every other name is given to exactly one product or is the guess. */
  lemma {:induction false} RecognisedIff(vendor: uint16, product: uint16, other: uint16)
    ensures DevName(vendor, product).Some? <==> vendor == 0x2040 && product >= 0xe500
    ensures DevName(vendor, product) != Some(UnknownVersion)
    ensures DevName(vendor, product).Some? && DevName(vendor, product) == DevName(vendor, other)
      ==> product == other || DevName(vendor, product) == Some(Guess)
  {
  }

  /** The products by name; the last name is a guess. */
  lemma {:induction false} NamesAreThese(product: uint16)
    ensures DevName(0x2040, 0xe504) == Some(GamingPlusSpdif) && DevName(0x2040, 0xe505) == Some(GamingPlusSpdifMic)
    ensures DevName(0x2040, 0xe524) == Some(Gaming) && DevName(0x2040, 0xe514) == Some(AltBling)
    ensures DevName(0x2040, 0xe515) == Some(AltBlingMic) && DevName(0x2040, 0xe525) == Some(GamingMic)
    ensures DevName(0x2040, 0xe52c) == Some(StreamEez) && DevName(0x2040, 0xe554) == Some(GamingPlusBlue)
    ensures DevName(0x2040, 0xe585) == Some(Colossus2)
    ensures DevName(0x2040, product) == Some(Guess) <==>
      (product >= 0xe500 && product !in {0xe504, 0xe505, 0xe514, 0xe515, 0xe524, 0xe525, 0xe52c, 0xe554, 0xe585})
  {
  }

  // ---------------------------------------------------------------- the serial number buffer

  /** The buffer, and the memory behind it, after libusb has written a string and its NUL; a failed
      read leaves it alone. */
  function Written(buf: string, s: Option<string>): (r: string)
    requires |buf| >= BUF_SIZE && (s.Some? ==> |s.value| < BUF_SIZE - 1)
    ensures |r| == |buf|
  {
    if s.None? then buf else s.value + ['\0'] + buf[|s.value| + 1..]
  }

  /** serial.compare(0, n, buf, n) == 0 for n = serial.size() */
  predicate Matches(buf: string, serial: string)
    requires |serial| <= |buf|
  {
    buf[..|serial|] == serial
  }

  /** The bytes behind the NUL of a short serial number never matter. */
  lemma {:induction false} MatchesWritten(buf: string, s: string, serial: string)
    requires |buf| >= BUF_SIZE && |s| < BUF_SIZE - 1 && |serial| <= |buf| && '\0' !in serial
    ensures Matches(Written(buf, Some(s)), serial) <==> serial <= s
  {
    var w := Written(buf, Some(s));
    if |serial| <= |s| {
      assert w[..|serial|] == s[..|serial|];
    } else {
      assert w[|s|] == '\0';
      assert w[..|serial|][|s|] == '\0';
      assert serial[|s|] in serial;
    }
  }

  // ---------------------------------------------------------------- the search

  predicate Candidate(d: UsbDevice) { d.readable && DevName(d.vendor, d.product).Some? && d.openable }

  /** libusb never delivers more than 255 characters. */
  predicate Sane(devs: seq<UsbDevice>) {
    forall d | d in devs && d.serial.Some? :: |d.serial.value| < BUF_SIZE - 1
  }

  /** The device that was asked for. */
  predicate Wanted(d: UsbDevice, serial: string) { Candidate(d) && d.serial.Some? && serial <= d.serial.value }

  /** The first wanted device, or the length of the list. */
  function FirstWanted(devs: seq<UsbDevice>, serial: string): (i: nat)
    ensures i <= |devs|
    ensures i < |devs| ==> Wanted(devs[i], serial)
    ensures forall j | 0 <= j < i :: !Wanted(devs[j], serial)
  {
    if devs == [] || Wanted(devs[0], serial) then 0 else 1 + FirstWanted(devs[1..], serial)
  }

  /** The first device that can be tried, or the length of the list. */
  function FirstCandidate(devs: seq<UsbDevice>): (i: nat)
    ensures i <= |devs|
  {
    if devs == [] || Candidate(devs[0]) then 0 else 1 + FirstCandidate(devs[1..])
  }

  /** The device that the loop of Open stops at, or the length of the list.  All devices share one
      buffer, which holds `buf` at the start. */
  function FirstMatch(devs: seq<UsbDevice>, serial: string, buf: string): (i: nat)
    requires |buf| >= BUF_SIZE && |serial| <= |buf| && Sane(devs)
    ensures i <= |devs|
    decreases |devs|
  {
    if devs == [] then 0
    else if !Candidate(devs[0]) then 1 + FirstMatch(devs[1..], serial, buf)
    else
      var read := Written(buf, devs[0].serial);
      if Matches(read, serial) then 0 else 1 + FirstMatch(devs[1..], serial, read)
  }

  lemma {:induction false} SearchStep(devs: seq<UsbDevice>, i: nat, serial: string, buf: string)
    requires |buf| >= BUF_SIZE && |serial| <= |buf| && i < |devs| && Sane(devs[i..])
    ensures Sane(devs[i + 1..]) && (devs[i].serial.Some? ==> |devs[i].serial.value| < BUF_SIZE - 1)
    ensures var (d, rest) := (devs[i], devs[i + 1..]); var m := FirstMatch(devs[i..], serial, buf);
      if !Candidate(d) then m == 1 + FirstMatch(rest, serial, buf)
      else
        var read := Written(buf, d.serial);
        m == if Matches(read, serial) then 0 else 1 + FirstMatch(rest, serial, read)
  {
    hide Candidate, Written, Matches;
    assert devs[i..][0] == devs[i] && devs[i..][1..] == devs[i + 1..];
    assert devs[i] in devs[i..];
    forall d | d in devs[i + 1..] ensures d in devs[i..] {
    }
  }

  lemma {:induction false} SearchEnd(devs: seq<UsbDevice>, i: nat, serial: string, buf: string)
    requires |buf| >= BUF_SIZE && |serial| <= |buf| && i <= |devs| && Sane(devs[i..])
    ensures i == |devs| ==> FirstMatch(devs[i..], serial, buf) == 0
  {
  }

  lemma {:induction false} NothingStale(devs: seq<UsbDevice>, serial: string, buf: string)
    requires |buf| >= BUF_SIZE && |serial| <= |buf| && Sane(devs) && '\0' !in serial && !Matches(buf, serial)
    ensures FirstMatch(devs, serial, buf) == FirstWanted(devs, serial)
    decreases |devs|
  {
    hide Candidate, Written, Matches;
    if devs == [] {
    } else if Candidate(devs[0]) && devs[0].serial.Some? {
      MatchesWritten(buf, devs[0].serial.value, serial);
      var read := Written(buf, devs[0].serial);
      if !Matches(read, serial) {
        NothingStale(devs[1..], serial, read);
      }
    } else {
      UnreadLeaves(buf);
      NothingStale(devs[1..], serial, buf);
    }
  }

  lemma {:induction false} UnreadLeaves(buf: string)
    requires |buf| >= BUF_SIZE
    ensures Written(buf, None) == buf
  {
  }

  /** The search finds the first device that was asked for, although the answers to the reads are
      ignored.  The one exception: the first device that can be tried is taken without a read when
      what the buffer held before already begins with the serial number that was asked for. */
  lemma {:induction false} SearchFinds(devs: seq<UsbDevice>, serial: string, buf: string)
    requires |buf| >= BUF_SIZE && |serial| <= |buf| && Sane(devs) && '\0' !in serial
    ensures var first := FirstCandidate(devs);
      FirstMatch(devs, serial, buf) ==
      if Matches(buf, serial) && first < |devs| && devs[first].serial.None? then first else FirstWanted(devs, serial)
    decreases |devs|
  {
    hide Candidate, Written, Matches;
    if !Matches(buf, serial) {
      NothingStale(devs, serial, buf);
    } else if devs == [] {
    } else if !Candidate(devs[0]) {
      SearchFinds(devs[1..], serial, buf);
    } else if devs[0].serial.None? {
      UnreadLeaves(buf);
    } else {
      MatchesWritten(buf, devs[0].serial.value, serial);
      var read := Written(buf, devs[0].serial);
      if !Matches(read, serial) {
        NothingStale(devs[1..], serial, read);
      }
    }
  }

  /** The first device that can be tried is taken without a read. */
  predicate TakenUnread(devs: seq<UsbDevice>, serial: string, buf: string)
    requires |serial| <= |buf|
  {
    var first := FirstCandidate(devs);
    Matches(buf, serial) && first < |devs| && devs[first].serial.None?
  }

  /** The search meets its purpose exactly when no device is taken unread: an unread device is never
      the one that was asked for. */
  lemma {:induction false} SearchIsRightIff(devs: seq<UsbDevice>, serial: string, buf: string)
    requires |buf| >= BUF_SIZE && |serial| <= |buf| && Sane(devs) && '\0' !in serial
    ensures FirstMatch(devs, serial, buf) == FirstWanted(devs, serial) <==> !TakenUnread(devs, serial, buf)
  {
    SearchFinds(devs, serial, buf);
  }

  const UNREAD := UsbDevice(true, 0x2040, 0xe585, 3, true, None, 1, 1)
  const ASKED_FOR := UsbDevice(true, 0x2040, 0xe585, 3, true, Some("0001"), 1, 2)

  /** It happens: the buffer begins with the serial number that only the second device has. */
  lemma {:induction false} WrongDeviceTaken(buf: string)
    requires |buf| >= BUF_SIZE && "0001" <= buf
    ensures var devs := [UNREAD, ASKED_FOR];
      && Sane(devs) && TakenUnread(devs, "0001", buf)
      && FirstMatch(devs, "0001", buf) == 0 && FirstWanted(devs, "0001") == 1
  {
    var devs := [UNREAD, ASKED_FOR];
    assert devs[1..] == [ASKED_FOR];
    assert Candidate(UNREAD) && Candidate(ASKED_FOR) && "0001" <= "0001";
    assert FirstWanted([ASKED_FOR], "0001") == 0;
    assert Matches(buf, "0001");
    SearchFinds(devs, "0001", buf);
  }

  datatype Event = Opened(handle: nat, index: nat) | Closed(handle: nat)

  /** The handles that a log leaves open; opens are of new handles, closes of open ones. */
  function OpenAfter(log: seq<Event>): set<nat>
  {
    if log == [] then {}
    else
      match log[|log| - 1]
      case Opened(h, _) => OpenAfter(log[..|log| - 1]) + {h}
      case Closed(h) => OpenAfter(log[..|log| - 1]) - {h}
  }

  predicate Proper(log: seq<Event>)
  {
    log == [] ||
    (Proper(log[..|log| - 1]) &&
     match log[|log| - 1]
     case Opened(h, _) => forall e | e in log[..|log| - 1] :: e.handle != h
     case Closed(h) => h in OpenAfter(log[..|log| - 1]))
  }

  lemma {:induction false} LogOne(log: seq<Event>, e: Event)
    ensures OpenAfter(log + [e]) == if e.Opened? then OpenAfter(log) + {e.handle} else OpenAfter(log) - {e.handle}
    ensures Proper(log + [e]) <==>
      Proper(log) && if e.Opened? then forall x | x in log :: x.handle != e.handle else e.handle in OpenAfter(log)
  {
    assert (log + [e])[..|log|] == log;
  }

  datatype Listed = Listed(vendor: uint16, product: uint16, serial: string, name: Model, bus: nat, port: nat)

  /** The text that a buffer holds. */
  function CString(buf: string): string { buf[..Find(buf, '\0')] }

  /** It ends at the first NUL, if there is one. */
  lemma {:induction false} CStringEnds(text: string, rest: string)
    requires '\0' !in text
    ensures CString(text) == text && CString(text + ['\0'] + rest) == text
  {
    FindNone(text, '\0');
    FindAt(text, '\0', rest);
    assert (text + ['\0'] + rest)[..|text|] == text;
  }

  /** What DeviceList reports of a device, if anything; `stale` is what its buffer holds when the
      serial number cannot be read, a failure that is ignored. */
  function Report(d: UsbDevice, stale: string): seq<Listed> {
    if Candidate(d) && d.serialIndex > 0 then
      [Listed(d.vendor, d.product, CString(if d.serial.Some? then d.serial.value else stale),
              DevName(d.vendor, d.product).value, d.bus, d.port)]
    else []
  }

  function Reports(devs: seq<UsbDevice>, stale: nat -> string): seq<Listed> {
    if devs == [] then []
    else
      var last := |devs| - 1;
      Reports(devs[..last], stale) + Report(devs[last], stale(last))
  }

  /** How Open ends its search: with an error, or by going on to reset and claim m_handle. */
  datatype Ending = Fails | GoesOn(with: Option<nat>)

  class Wrapper {
    const ctx: bool                        // libusb_init succeeded
    const bus: Option<seq<UsbDevice>>      // the answer of libusb_get_device_list
    var devList: Option<seq<UsbDevice>>    // m_dev_list, null until the first successful call
    var handle: Option<nat>                // m_handle
    var device: nat                        // the index of m_device, meaningful with a handle
    var next: nat                          // the handle libusb gives out next
    var log: seq<Event>

    /** What holds between any calls: m_handle is open. */
    ghost predicate Valid()
      reads this
    {
      && Proper(log) && (handle.Some? ==> handle.value in OpenAfter(log))
      && (forall e | e in log :: e.handle < next)
      && (bus.Some? ==> Sane(bus.value)) && (devList.Some? ==> devList == bus)
    }

    /** The open handles but for m_handle. */
    ghost function Leaked(): set<nat>
      reads this
    {
      OpenAfter(log) - if handle.Some? then {handle.value} else {}
    }

    constructor (ctx: bool, bus: Option<seq<UsbDevice>>)
      requires bus.Some? ==> Sane(bus.value)
      ensures Valid() && handle.None? && Leaked() == {} && this.ctx == ctx && this.bus == bus
    {
      this.ctx := ctx;
      this.bus := bus;
      devList, handle, device, next, log := None, None, 0, 0, [];
    }

    /** libusb_open on an openable device */
    method OpenHandle(index: nat) returns (h: nat)
      requires Proper(log) && forall e | e in log :: e.handle < next
      modifies this`next, this`log
      ensures Proper(log) && forall e | e in log :: e.handle < next
      ensures h == old(next) && log == old(log) + [Opened(h, index)] && OpenAfter(log) == OpenAfter(old(log)) + {h}
      ensures h !in OpenAfter(old(log))
    {
      h := next;
      OpenIsLogged(log);
      LogOne(log, Opened(h, index));
      next := next + 1;
      log := log + [Opened(h, index)];
    }

    /** libusb_close */
    method CloseHandle(h: nat)
      requires Proper(log) && h in OpenAfter(log) && forall e | e in log :: e.handle < next
      modifies this`log
      ensures Proper(log) && forall e | e in log :: e.handle < next
      ensures log == old(log) + [Closed(h)] && OpenAfter(log) == OpenAfter(old(log)) - {h}
    {
      OpenIsLogged(log);
      LogOne(log, Closed(h));
      log := log + [Closed(h)];
    }

    /** The body of the loop of DeviceList, USBif.cpp:228-256. */
    method ListDevice(d: UsbDevice, idx: nat, stale: string) returns (listed: seq<Listed>)
      requires Valid()
      modifies this`next, this`log
      ensures Valid() && OpenAfter(log) == OpenAfter(old(log)) && listed == Report(d, stale)
    {
      hide DevName, Proper, OpenAfter, Candidate, Report, CString, Sane;
      ReportIff(d, stale);
      listed := [];
      if d.readable && DevName(d.vendor, d.product).Some? && d.serialIndex > 0 && d.openable {
        var h := OpenHandle(idx);
        var strDesc := if d.serial.Some? then d.serial.value else stale;
        listed := [Listed(d.vendor, d.product, CString(strDesc), DevName(d.vendor, d.product).value, d.bus, d.port)];
        CloseHandle(h);
      }
    }

    /** USBWrapper_t::DeviceList, USBif.cpp:203-260; `devs` is what the caller's vector held and
        holds afterwards, `stale` what the buffer for each device holds before the read. */
    method DeviceList(devs: seq<Listed>, stale: nat -> string) returns (ok: bool, devs': seq<Listed>)
      requires Valid()
      modifies this`devList, this`next, this`log
      ensures Valid() && OpenAfter(log) == OpenAfter(old(log)) && Leaked() == old(Leaked())
      ensures devs' == if ctx && bus.Some? then devs + Reports(bus.value, stale) else devs
      ensures ok <==> ctx && bus.Some? && bus.value != [] && devs' != []
    {
      hide Proper, OpenAfter, Report, Sane;
      devs' := devs;
      if !ctx {
        return false, devs;
      }
      if devList.None? {
        if bus.None? {
          return false, devs;
        }
        devList := bus;
      }
      var list := devList.value;
      if |list| == 0 {
        return false, devs;
      }
      for idx := 0 to |list|
        invariant Valid() && devList == Some(list) && OpenAfter(log) == OpenAfter(old(log))
        invariant devs' == devs + Reports(list[..idx], stale)
      {
        ReportsOneMore(list, stale, idx);
        var listed := ListDevice(list[idx], idx, stale(idx));
        devs' := devs' + listed;
      }
      assert list[..|list|] == list;
      ok := devs' != [];
    }

    /** The body of the loop of Open, USBif.cpp:309-339. */
    method TryDevice(d: UsbDevice, idx: nat, serial: string, buf: string) returns (found: bool, read: string)
      requires Valid() && |serial| <= |buf| && |buf| >= BUF_SIZE && (d.serial.Some? ==> |d.serial.value| < BUF_SIZE - 1)
      modifies this`handle, this`device, this`next, this`log
      ensures Valid() && |read| == |buf|
      ensures read == if Candidate(d) then Written(buf, d.serial) else buf
      ensures found <==> Candidate(d) && Matches(read, serial)
      ensures if found then
          && handle.Some? && handle.value !in OpenAfter(old(log)) && device == idx
          && Opened(handle.value, idx) in log && Leaked() == OpenAfter(old(log))
        else
          handle == old(handle) && OpenAfter(log) == OpenAfter(old(log))
    {
      hide DevName, Proper, OpenAfter, Candidate, Written, Matches, Sane;
      CandidateIff(d);
      read := buf;
      if !d.readable || DevName(d.vendor, d.product).None? || !d.openable {
        return false, read;
      }
      var h := OpenHandle(idx);
      read := Written(buf, d.serial);
      if !Matches(read, serial) {
        CloseHandle(h);
        return false, read;
      }
      handle := Some(h);
      device := idx;
      return true, read;
    }

    /** USBWrapper_t::Open, USBif.cpp:279-349.  `garbage` is what the uninitialised buffer and the
        memory behind it hold, as far as the comparison can reach.  A handle that is held already is
        overwritten, and so stays open for good, exactly when a device is found.  The counter that is
        compared with the length of the list after the loop is not the loop's own: it is still 0, so
        the report that the serial number was not found is never made for a list with a device, and
        the calls that follow are made on whatever m_handle holds. */
    method Open(serial: string, garbage: string) returns (end: Ending)
      requires Valid() && |serial| <= |garbage| && |garbage| >= BUF_SIZE
      modifies this
      ensures Valid()
      ensures end == Fails <==> !ctx || bus.None? || bus.value == []
      ensures end == Fails ==> handle == old(handle) && Leaked() == old(Leaked())
      ensures end != Fails ==> var i := FirstMatch(bus.value, serial, garbage);
        && end == GoesOn(handle)
        && (if i < |bus.value| then
              && handle.Some? && handle.value !in OpenAfter(old(log))
              && device == i && Opened(handle.value, i) in log && Leaked() == OpenAfter(old(log))
            else
              handle == old(handle) && Leaked() == old(Leaked()))
    {
      hide Proper, OpenAfter, Candidate, Written, Matches, FirstMatch, Sane;
      var outer := 0;
      if !ctx {
        return Fails;
      }
      if devList.None? {
        if bus.None? {
          return Fails;
        }
        devList := bus;
      }
      var list := devList.value;
      var strDesc := garbage;
      var idx := 0;
      assert list[0..] == list;
      while idx < |list|
        invariant 0 <= idx <= |list| && Valid() && devList == Some(list) && |strDesc| == |garbage|
        invariant handle == old(handle) && OpenAfter(log) == OpenAfter(old(log))
        invariant Sane(list[idx..])
        invariant idx + FirstMatch(list[idx..], serial, strDesc) == FirstMatch(list, serial, garbage)
      {
        SearchStep(list, idx, serial, strDesc);
        var found;
        found, strDesc := TryDevice(list[idx], idx, serial, strDesc);
        if found {
          break;
        }
        idx := idx + 1;
      }
      SearchEnd(list, idx, serial, strDesc);
      if outer == |list| {
        return Fails;
      }
      return GoesOn(handle);
    }

    /** USBWrapper_t::Close, USBif.cpp:381-389. */
    method Close()
      requires Valid()
      modifies this`handle, this`log
      ensures Valid() && handle.None? && OpenAfter(log) == old(Leaked())
      ensures log == old(log) + if old(handle).Some? then [Closed(old(handle).value)] else []
    {
      if handle.Some? {
        CloseHandle(handle.value);
        handle := None;
      }
    }
  }

  const OTHER := UsbDevice(true, 0x2040, 0xe585, 3, true, Some("0002"), 1, 1)

  /** A search for a serial number that no device has goes on with a null handle. */
  method OpenWithoutMatch(garbage: string) returns (w: Wrapper, end: Ending)
    requires |garbage| >= BUF_SIZE
    ensures w.bus == Some([OTHER]) && w.ctx && w.handle.None? && end == GoesOn(None)
  {
    w := new Wrapper(true, Some([OTHER]));
    NoDeviceMatches(garbage);
    end := w.Open("0001", garbage);
  }

  /** With a single device of another serial number the search ends behind the list. */
  lemma {:induction false} NoDeviceMatches(garbage: string)
    requires |garbage| >= BUF_SIZE
    ensures Sane([OTHER]) && FirstMatch([OTHER], "0001", garbage) == 1
  {
    var devs := [OTHER];
    assert !("0001" <= "0002") by {
      assert "0001"[3] != "0002"[3];
    }
    SearchFinds(devs, "0001", garbage);
    assert FirstCandidate(devs) == 0 && !Wanted(OTHER, "0001");
  }

  lemma {:induction false} ReportsOneMore(devs: seq<UsbDevice>, stale: nat -> string, i: nat)
    requires i < |devs|
    ensures Reports(devs[..i + 1], stale) == Reports(devs[..i], stale) + Report(devs[i], stale(i))
  {
    hide Report;
    assert devs[..i + 1][..i] == devs[..i];
  }

  lemma {:induction false} ReportIff(d: UsbDevice, stale: string)
    ensures Report(d, stale) ==
      if d.readable && DevName(d.vendor, d.product).Some? && d.serialIndex > 0 && d.openable then
        [Listed(d.vendor, d.product, CString(if d.serial.Some? then d.serial.value else stale),
                DevName(d.vendor, d.product).value, d.bus, d.port)]
      else []
  {
  }

  lemma {:induction false} CandidateIff(d: UsbDevice)
    ensures Candidate(d) <==> d.readable && DevName(d.vendor, d.product).Some? && d.openable
  {
  }

  lemma {:induction false} OpenIsLogged(log: seq<Event>)
    ensures forall h | h in OpenAfter(log) :: exists e :: e in log && e.handle == h
  {
    if log == [] {
    } else {
      OpenIsLogged(log[..|log| - 1]);
      assert log[|log| - 1] in log;
    }
  }
}
