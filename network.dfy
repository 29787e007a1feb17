/**
 * Interface discovery helpers of pkg/utils/network.go: the reader of
 * `networksetup -listallhardwareports` output (everything after the command
 * has produced its lines) and the keyword matcher.
 */
module Network {
  import opened Wrappers
  import opened Strings

  /** One hardware port: its name ("Wi-Fi"), device ("en0") and MAC address. */
  datatype InterfaceInfo = InterfaceInfo(name: string, deviceName: string, macAddress: string)

  const NoInterface := InterfaceInfo("", "", "")

  const PortPrefix := "Hardware Port:"
  const DevicePrefix := "Device:"
  const AddressPrefix := "Ethernet Address:"

  /** What the reader sees in one line, tested in the reader's order. */
  datatype LineKind = PortLine(name: string) | DeviceLine(device: string) | AddressLine(address: string) | OtherLine

  function Classify(line: string): LineKind {
    var t := TrimSpace(line);
    if HasPrefix(t, PortPrefix) then PortLine(TrimSpace(TrimPrefix(t, PortPrefix)))
    else if HasPrefix(t, DevicePrefix) then DeviceLine(TrimSpace(TrimPrefix(t, DevicePrefix)))
    else if HasPrefix(t, AddressPrefix) then AddressLine(TrimSpace(TrimPrefix(t, AddressPrefix)))
    else OtherLine
  }

  predicate IsPortLine(line: string) {
    Classify(line).PortLine?
  }

  predicate IsDeviceLine(line: string) {
    Classify(line).DeviceLine?
  }

  predicate IsAddressLine(line: string) {
    Classify(line).AddressLine?
  }

  predicate NoPortLines(lines: seq<string>) {
    forall i :: 0 <= i < |lines| ==> !IsPortLine(lines[i])
  }

  // ---------------------------------------------------------------------
  // The reader as a left fold over the lines
  // ---------------------------------------------------------------------

  /** Records completed so far, and the record being filled. */
  datatype Scan = Scan(found: seq<InterfaceInfo>, current: InterfaceInfo)

  const Start := Scan([], NoInterface)

  /** The completed records plus the current one when it has a name. */
  function Flushed(s: Scan): seq<InterfaceInfo> {
    if s.current.name != "" then s.found + [s.current] else s.found
  }

  /** What one line does to the reader's state. */
  function Step(s: Scan, line: string): Scan {
    match Classify(line)
    case PortLine(name) => Scan(Flushed(s), InterfaceInfo(name, "", ""))
    case DeviceLine(device) => s.(current := s.current.(deviceName := device))
    case AddressLine(address) => s.(current := s.current.(macAddress := address))
    case OtherLine => s
  }

  function ScanLines(s: Scan, lines: seq<string>): Scan
    decreases |lines|
  {
    if lines == [] then s else ScanLines(Step(s, lines[0]), lines[1..])
  }

  /** The records that the reader returns for `lines`. */
  function HardwarePorts(lines: seq<string>): seq<InterfaceInfo> {
    Flushed(ScanLines(Start, lines))
  }

  /** The loop of GetNetworkInterfaces, run on the command's output lines. */
  method ParseHardwarePorts(lines: seq<string>) returns (interfaces: seq<InterfaceInfo>)
    ensures interfaces == HardwarePorts(lines)
  {
    interfaces := [];
    var current := NoInterface;
    var i := 0;
    while i < |lines|
      invariant 0 <= i <= |lines|
      invariant ScanLines(Scan(interfaces, current), lines[i..]) == ScanLines(Start, lines)
    {
      var line := TrimSpace(lines[i]);
      if HasPrefix(line, PortPrefix) {
        if current.name != "" {
          interfaces := interfaces + [current];
        }
        current := InterfaceInfo(TrimSpace(TrimPrefix(line, PortPrefix)), "", "");
      } else if HasPrefix(line, DevicePrefix) {
        current := current.(deviceName := TrimSpace(TrimPrefix(line, DevicePrefix)));
      } else if HasPrefix(line, AddressPrefix) {
        current := current.(macAddress := TrimSpace(TrimPrefix(line, AddressPrefix)));
      }
      assert lines[i..][1..] == lines[i + 1..];
      i := i + 1;
    }
    if current.name != "" {
      interfaces := interfaces + [current];
    }
  }

  // ---------------------------------------------------------------------
  // What the reader returns
  // ---------------------------------------------------------------------

  lemma {:induction false} ScanConcat(s: Scan, a: seq<string>, b: seq<string>)
    ensures ScanLines(s, a + b) == ScanLines(ScanLines(s, a), b)
    decreases |a|
  {
    if a == [] {
      assert a + b == b;
    } else {
      assert (a + b)[0] == a[0];
      assert (a + b)[1..] == a[1..] + b;
      ScanConcat(Step(s, a[0]), a[1..], b);
    }
  }

  lemma {:induction false} ScanKeepsNames(s: Scan, lines: seq<string>)
    requires forall r :: r in s.found ==> r.name != ""
    ensures forall r :: r in ScanLines(s, lines).found ==> r.name != ""
    decreases |lines|
  {
    if lines != [] {
      StepKeepsNames(s, lines[0]);
      assert ScanLines(s, lines) == ScanLines(Step(s, lines[0]), lines[1..]);
      ScanKeepsNames(Step(s, lines[0]), lines[1..]);
    }
  }

  lemma StepKeepsNames(s: Scan, l: string)
    requires forall r :: r in s.found ==> r.name != ""
    ensures forall r :: r in Step(s, l).found ==> r.name != ""
  {
    var found := Step(s, l).found;
    assert found == s.found || (found == s.found + [s.current] && s.current.name != "");
  }

  /** Every returned record has a non-empty name. */
  lemma PortsAreNamed(lines: seq<string>)
    ensures forall r :: r in HardwarePorts(lines) ==> r.name != ""
  {
    ScanKeepsNames(Start, lines);
  }

  /** The names of the records, in order. */
  function Names(rs: seq<InterfaceInfo>): (ns: seq<string>)
    ensures |ns| == |rs|
    decreases |rs|
  {
    if rs == [] then [] else Names(rs[..|rs| - 1]) + [rs[|rs| - 1].name]
  }

  /** The i-th name is the name of the i-th record. */
  lemma {:induction false} NamesAt(rs: seq<InterfaceInfo>)
    ensures forall i :: 0 <= i < |rs| ==> Names(rs)[i] == rs[i].name
    decreases |rs|
  {
    if rs != [] {
      var init := rs[..|rs| - 1];
      NamesAt(init);
      assert forall i :: 0 <= i < |init| ==> rs[i] == init[i];
    }
  }

  lemma NamesSnoc(rs: seq<InterfaceInfo>, r: InterfaceInfo)
    ensures Names(rs + [r]) == Names(rs) + [r.name]
  {
    assert (rs + [r])[..|rs|] == rs;
  }

  /** The name a line contributes: that of a "Hardware Port:" line, when it is not empty. */
  function LineName(l: string): seq<string> {
    if IsPortLine(l) && Classify(l).name != "" then [Classify(l).name] else []
  }

  /** The non-empty names of the "Hardware Port:" lines, in input order. */
  function PortNames(lines: seq<string>): seq<string>
    decreases |lines|
  {
    if lines == [] then [] else LineName(lines[0]) + PortNames(lines[1..])
  }

  lemma {:induction false} ScanNames(s: Scan, lines: seq<string>)
    ensures Names(Flushed(ScanLines(s, lines))) == Names(Flushed(s)) + PortNames(lines)
    decreases |lines|
  {
    if lines != [] {
      var t := Step(s, lines[0]);
      assert ScanLines(s, lines) == ScanLines(t, lines[1..]);
      StepNames(s, lines[0]);
      ScanNames(t, lines[1..]);
      ConcatAssoc(Names(Flushed(s)), LineName(lines[0]), PortNames(lines[1..]));
    }
  }

  lemma StepNames(s: Scan, l: string)
    ensures Names(Flushed(Step(s, l))) == Names(Flushed(s)) + LineName(l)
  {
    var t := Step(s, l);
    match Classify(l)
    case PortLine(name) =>
      if name != "" {
        NamesSnoc(Flushed(s), t.current);
      }
    case _ =>
      assert t.found == s.found && t.current.name == s.current.name;
      if s.current.name != "" {
        NamesSnoc(s.found, s.current);
        NamesSnoc(t.found, t.current);
      }
  }

  /** One record per named "Hardware Port:" line, in the order of the lines. */
  lemma RecordsFollowPortLines(lines: seq<string>)
    ensures Names(HardwarePorts(lines)) == PortNames(lines)
  {
    ScanNames(Start, lines);
  }

  lemma {:induction false} NoPortKeepsState(s: Scan, lines: seq<string>)
    requires NoPortLines(lines)
    ensures ScanLines(s, lines).found == s.found
    ensures ScanLines(s, lines).current.name == s.current.name
    decreases |lines|
  {
    if lines != [] {
      assert !IsPortLine(lines[0]);
      NoPortKeepsState(Step(s, lines[0]), lines[1..]);
    }
  }

  lemma {:induction false} NamelessAlike(s: Scan, t: Scan, lines: seq<string>)
    requires s.found == t.found && s.current.name == "" && t.current.name == ""
    ensures Flushed(ScanLines(s, lines)) == Flushed(ScanLines(t, lines))
    decreases |lines|
  {
    if lines != [] {
      if IsPortLine(lines[0]) {
        assert Step(s, lines[0]) == Step(t, lines[0]);
      } else {
        NamelessAlike(Step(s, lines[0]), Step(t, lines[0]), lines[1..]);
      }
    }
  }

  /** Device and address lines before the first "Hardware Port:" line never show up. */
  lemma LinesBeforeFirstPortIgnored(pre: seq<string>, rest: seq<string>)
    requires NoPortLines(pre)
    ensures HardwarePorts(pre + rest) == HardwarePorts(rest)
  {
    ScanConcat(Start, pre, rest);
    NoPortKeepsState(Start, pre);
    NamelessAlike(ScanLines(Start, pre), Start, rest);
  }

  predicate HasDevice(body: seq<string>) {
    exists i :: 0 <= i < |body| && IsDeviceLine(body[i])
  }

  predicate HasAddress(body: seq<string>) {
    exists i :: 0 <= i < |body| && IsAddressLine(body[i])
  }

  /** The value of the last "Device:" line of `body` ("" when there is none). */
  function LastDevice(body: seq<string>): string
    decreases |body|
  {
    if body == [] then ""
    else if IsDeviceLine(body[|body| - 1]) then Classify(body[|body| - 1]).device
    else LastDevice(body[..|body| - 1])
  }

  /** The value of the last "Ethernet Address:" line of `body` ("" when there is none). */
  function LastAddress(body: seq<string>): string
    decreases |body|
  {
    if body == [] then ""
    else if IsAddressLine(body[|body| - 1]) then Classify(body[|body| - 1]).address
    else LastAddress(body[..|body| - 1])
  }

  /** The record that a port line followed by `body` describes. */
  function PortRecord(port: string, body: seq<string>): InterfaceInfo
    requires IsPortLine(port)
  {
    InterfaceInfo(Classify(port).name, LastDevice(body), LastAddress(body))
  }

  /** The current record after it has absorbed the device and address lines of `body`. */
  function Absorbed(c: InterfaceInfo, body: seq<string>): InterfaceInfo {
    c.(deviceName := if HasDevice(body) then LastDevice(body) else c.deviceName,
       macAddress := if HasAddress(body) then LastAddress(body) else c.macAddress)
  }

  lemma DeviceSnoc(init: seq<string>, l: string)
    ensures HasDevice(init + [l]) <==> HasDevice(init) || IsDeviceLine(l)
    ensures LastDevice(init + [l]) == if IsDeviceLine(l) then Classify(l).device else LastDevice(init)
  {
    var b := init + [l];
    assert b[..|b| - 1] == init;
    assert forall i :: 0 <= i < |init| ==> b[i] == init[i];
    assert b[|b| - 1] == l;
  }

  lemma AddressSnoc(init: seq<string>, l: string)
    ensures HasAddress(init + [l]) <==> HasAddress(init) || IsAddressLine(l)
    ensures LastAddress(init + [l]) == if IsAddressLine(l) then Classify(l).address else LastAddress(init)
  {
    var b := init + [l];
    assert b[..|b| - 1] == init;
    assert forall i :: 0 <= i < |init| ==> b[i] == init[i];
    assert b[|b| - 1] == l;
  }

  lemma BodySnoc(init: seq<string>, l: string)
    ensures HasDevice(init + [l]) <==> HasDevice(init) || IsDeviceLine(l)
    ensures HasAddress(init + [l]) <==> HasAddress(init) || IsAddressLine(l)
    ensures LastDevice(init + [l]) == if IsDeviceLine(l) then Classify(l).device else LastDevice(init)
    ensures LastAddress(init + [l]) == if IsAddressLine(l) then Classify(l).address else LastAddress(init)
  {
    DeviceSnoc(init, l);
    AddressSnoc(init, l);
  }

  lemma {:induction false} ScanBody(f: seq<InterfaceInfo>, c: InterfaceInfo, body: seq<string>)
    requires NoPortLines(body)
    ensures ScanLines(Scan(f, c), body) == Scan(f, Absorbed(c, body))
    decreases |body|
  {
    if body == [] {
      assert !HasDevice(body) && !HasAddress(body);
    } else {
      var init, l := body[..|body| - 1], body[|body| - 1];
      assert body == init + [l];
      assert NoPortLines(init) by {
        forall i | 0 <= i < |init| ensures !IsPortLine(init[i]) {
          assert init[i] == body[i];
        }
      }
      assert !IsPortLine(l);
      ScanConcat(Scan(f, c), init, [l]);
      ScanBody(f, c, init);
      assert [l][1..] == [];
      assert ScanLines(Scan(f, c), body) == Step(Scan(f, Absorbed(c, init)), l);
      BodySnoc(init, l);
    }
  }

  lemma {:induction false} ScanFoundPrefix(p: seq<InterfaceInfo>, s: Scan, lines: seq<string>)
    ensures ScanLines(Scan(p + s.found, s.current), lines)
         == Scan(p + ScanLines(s, lines).found, ScanLines(s, lines).current)
    decreases |lines|
  {
    if lines != [] {
      var t := Step(s, lines[0]);
      FlushedPrefix(p, s);
      assert Step(Scan(p + s.found, s.current), lines[0]) == Scan(p + t.found, t.current);
      ScanFoundPrefix(p, t, lines[1..]);
    }
  }

  lemma {:induction false} NoDeviceNoValue(body: seq<string>)
    requires !HasDevice(body)
    ensures LastDevice(body) == ""
    decreases |body|
  {
    if body != [] {
      var init := body[..|body| - 1];
      assert !IsDeviceLine(body[|body| - 1]);
      assert !HasDevice(init) by {
        forall i | 0 <= i < |init| ensures !IsDeviceLine(init[i]) {
          assert init[i] == body[i];
        }
      }
      NoDeviceNoValue(init);
    }
  }

  lemma {:induction false} NoAddressNoValue(body: seq<string>)
    requires !HasAddress(body)
    ensures LastAddress(body) == ""
    decreases |body|
  {
    if body != [] {
      var init := body[..|body| - 1];
      assert !IsAddressLine(body[|body| - 1]);
      assert !HasAddress(init) by {
        forall i | 0 <= i < |init| ensures !IsAddressLine(init[i]) {
          assert init[i] == body[i];
        }
      }
      NoAddressNoValue(init);
    }
  }

  /** A port line and a block without port lines leave one record being filled. */
  lemma BlockScan(port: string, body: seq<string>)
    requires IsPortLine(port) && NoPortLines(body)
    ensures ScanLines(Start, [port] + body) == Scan([], PortRecord(port, body))
  {
    var blank := InterfaceInfo(Classify(port).name, "", "");
    assert [port][1..] == [];
    assert ScanLines(Start, [port]) == Scan([], blank);
    ScanConcat(Start, [port], body);
    ScanBody([], blank, body);
    if !HasDevice(body) { NoDeviceNoValue(body); }
    if !HasAddress(body) { NoAddressNoValue(body); }
  }

  /** A port line flushes the record being filled, and the reader then starts afresh. */
  lemma FlushAtPort(c: InterfaceInfo, rest: seq<string>)
    requires rest == [] || IsPortLine(rest[0])
    ensures Flushed(ScanLines(Scan([], c), rest)) == Flushed(Scan([], c)) + HardwarePorts(rest)
  {
    var head := Flushed(Scan([], c));
    if rest != [] {
      var name := Classify(rest[0]).name;
      var s0 := Scan([], InterfaceInfo(name, "", ""));
      PortStep(Start, rest[0]);
      PortStep(Scan([], c), rest[0]);
      assert head + s0.found == head;
      assert ScanLines(Scan([], c), rest) == ScanLines(Step(Scan([], c), rest[0]), rest[1..]);
      ScanFoundPrefix(head, s0, rest[1..]);
      var x := ScanLines(s0, rest[1..]);
      FlushedPrefix(head, x);
      calc {
        Flushed(ScanLines(Scan([], c), rest));
        Flushed(ScanLines(Scan(head, s0.current), rest[1..]));
        Flushed(ScanLines(Scan(head + s0.found, s0.current), rest[1..]));
        Flushed(Scan(head + x.found, x.current));
        head + Flushed(x);
        head + HardwarePorts(rest);
      }
    }
  }

  /** A port line closes the record being filled and opens a blank one under its name. */
  lemma PortStep(s: Scan, line: string)
    requires IsPortLine(line)
    ensures Step(s, line) == Scan(Flushed(s), InterfaceInfo(Classify(line).name, "", ""))
  {
  }

  lemma FlushedPrefix(p: seq<InterfaceInfo>, s: Scan)
    ensures Flushed(Scan(p + s.found, s.current)) == p + Flushed(s)
  {
    if s.current.name != "" {
      assert p + s.found + [s.current] == p + (s.found + [s.current]);
    }
  }

  /**
   * A port line, the lines up to the next port line, and the rest: the block
   * gives one record, named by the port line when that name is not empty,
   * whose device and address are the last ones given in the block.
   */
  lemma {:induction false} PortBlock(port: string, body: seq<string>, rest: seq<string>)
    requires IsPortLine(port) && NoPortLines(body)
    requires rest == [] || IsPortLine(rest[0])
    ensures var rec := PortRecord(port, body);
      HardwarePorts([port] + body + rest) == (if rec.name != "" then [rec] else []) + HardwarePorts(rest)
  {
    var rec := PortRecord(port, body);
    assert ScanLines(Start, [port] + body + rest) == ScanLines(Scan([], rec), rest) by {
      BlockThenRest(port, body, rest);
    }
    assert Flushed(ScanLines(Scan([], rec), rest)) == Flushed(Scan([], rec)) + HardwarePorts(rest) by {
      FlushAtPort(rec, rest);
    }
    FlushedSingle(rec);
  }

  lemma FlushedSingle(rec: InterfaceInfo)
    ensures Flushed(Scan([], rec)) == if rec.name != "" then [rec] else []
  {
    if rec.name != "" {
      assert [] + [rec] == [rec];
    }
  }

  lemma {:induction false} BlockThenRest(port: string, body: seq<string>, rest: seq<string>)
    requires IsPortLine(port) && NoPortLines(body)
    ensures ScanLines(Start, [port] + body + rest) == ScanLines(Scan([], PortRecord(port, body)), rest)
  {
    BlockScan(port, body);
    ScanConcat(Start, [port] + body, rest);
  }

  // ---------------------------------------------------------------------
  // FindInterfaceByName
  // ---------------------------------------------------------------------

  /** The lower-cased name contains one of the lower-cased keywords. */
  predicate NameMatches(name: string, keywords: seq<string>) {
    exists k :: 0 <= k < |keywords| && Contains(ToLower(name), ToLower(keywords[k]))
  }

  /**
   * The first interface, in list order, whose name matches some keyword;
   * None when no name matches any keyword.
   */
  function FindInterfaceByName(interfaces: seq<InterfaceInfo>, keywords: seq<string>): (r: Option<InterfaceInfo>)
    ensures r.None? <==> forall i :: 0 <= i < |interfaces| ==> !NameMatches(interfaces[i].name, keywords)
    ensures r.Some? ==> exists i :: 0 <= i < |interfaces| && interfaces[i] == r.value
                                  && NameMatches(interfaces[i].name, keywords)
                                  && forall j :: 0 <= j < i ==> !NameMatches(interfaces[j].name, keywords)
    decreases |interfaces|
  {
    if interfaces == [] then None
    else if NameMatches(interfaces[0].name, keywords) then Some(interfaces[0])
    else
      var r := FindInterfaceByName(interfaces[1..], keywords);
      assert r.Some? ==> exists i :: 0 <= i < |interfaces| && interfaces[i] == r.value
                                  && NameMatches(interfaces[i].name, keywords)
                                  && forall j :: 0 <= j < i ==> !NameMatches(interfaces[j].name, keywords) by {
        if r.Some? {
          var i :| 0 <= i < |interfaces| - 1 && interfaces[1..][i] == r.value
                   && NameMatches(interfaces[1..][i].name, keywords)
                   && forall j :: 0 <= j < i ==> !NameMatches(interfaces[1..][j].name, keywords);
          assert interfaces[i + 1] == r.value;
          forall j | 0 <= j < i + 1 ensures !NameMatches(interfaces[j].name, keywords) {
            if j > 0 { assert interfaces[j] == interfaces[1..][j - 1]; }
          }
        }
      }
      r
  }

  lemma SameKeywordsSameMatch(name: string, k1: seq<string>, k2: seq<string>)
    requires forall k :: k in k1 <==> k in k2
    ensures NameMatches(name, k1) == NameMatches(name, k2)
  {
    if NameMatches(name, k1) {
      var a :| 0 <= a < |k1| && Contains(ToLower(name), ToLower(k1[a]));
      assert k1[a] in k2;
      var b :| 0 <= b < |k2| && k2[b] == k1[a];
    }
    if NameMatches(name, k2) {
      var b :| 0 <= b < |k2| && Contains(ToLower(name), ToLower(k2[b]));
      assert k2[b] in k1;
      var a :| 0 <= a < |k1| && k1[a] == k2[b];
    }
  }

  /** Only the set of keywords matters: interface order decides, not keyword order. */
  lemma {:induction false} KeywordOrderIrrelevant(interfaces: seq<InterfaceInfo>, k1: seq<string>, k2: seq<string>)
    requires forall k :: k in k1 <==> k in k2
    ensures FindInterfaceByName(interfaces, k1) == FindInterfaceByName(interfaces, k2)
    decreases |interfaces|
  {
    if interfaces != [] {
      SameKeywordsSameMatch(interfaces[0].name, k1, k2);
      KeywordOrderIrrelevant(interfaces[1..], k1, k2);
    }
  }
}
