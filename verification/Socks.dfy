/**
 SOCKS4 and SOCKS4A requests: the bytes the CGI server writes, and what the SOCKS server reads
 out of them.
 */
module Socks {
  import opened Text
  import opened Firewall

  type Byte = x: int | 0 <= x < 256

  const HEADER: nat := 8

  /** Network byte order. */
  function BigEndian(v: nat, n: nat): (b: seq<Byte>)
    ensures |b| == n
  {
    if n == 0 then [] else BigEndian(v / 256, n - 1) + [v % 256]
  }

  function Value(b: seq<Byte>): nat {
    if b == [] then 0 else 256 * Value(b[..|b| - 1]) + b[|b| - 1]
  }

  function Power(n: nat): (p: nat)
    ensures 1 <= p
  {
    if n == 0 then 1 else 256 * Power(n - 1)
  }

  lemma {:induction false} ValueBigEndian(v: nat, n: nat)
    requires v < Power(n)
    ensures Value(BigEndian(v, n)) == v
  {
    if n > 0 {
      ValueBigEndian(v / 256, n - 1);
      var b := BigEndian(v, n);
      assert b[..n - 1] == BigEndian(v / 256, n - 1);
    }
  }

  /** The in-memory order of the machine: least significant byte first. */
  function LittleEndian(v: nat, n: nat): (b: seq<Byte>)
    ensures |b| == n
  {
    if n == 0 then [] else [v % 256] + LittleEndian(v / 256, n - 1)
  }

  function Load(b: seq<Byte>): nat {
    if b == [] then 0 else b[0] + 256 * Load(b[1..])
  }

  /** htons and htonl, and ntohs and ntohl: the bytes the other way round. */
  function Swap(v: nat, n: nat): nat {
    Value(LittleEndian(v, n))
  }

  function Reversed(b: seq<Byte>): (r: seq<Byte>)
    ensures |r| == |b|
  {
    if b == [] then [] else Reversed(b[1..]) + [b[0]]
  }

  lemma {:induction false} ReversedConcat(a: seq<Byte>, x: Byte)
    ensures Reversed(a + [x]) == [x] + Reversed(a)
    decreases |a|
  {
    if a != [] {
      assert (a + [x])[1..] == a[1..] + [x];
      ReversedConcat(a[1..], x);
    } else {
      assert a + [x] == [x] && [x][1..] == [];
    }
  }

  lemma {:induction false} ReversedLittle(v: nat, n: nat)
    ensures Reversed(LittleEndian(v, n)) == BigEndian(v, n)
    ensures Reversed(BigEndian(v, n)) == LittleEndian(v, n)
  {
    if n > 0 {
      ReversedLittle(v / 256, n - 1);
      assert LittleEndian(v, n)[1..] == LittleEndian(v / 256, n - 1);
      ReversedConcat(BigEndian(v / 256, n - 1), v % 256);
    }
  }

  lemma {:induction false} LoadReversed(b: seq<Byte>)
    ensures Load(b) == Value(Reversed(b))
  {
    if b != [] {
      LoadReversed(b[1..]);
      var r := Reversed(b);
      assert r[..|r| - 1] == Reversed(b[1..]);
    }
  }

  lemma {:induction false} LittleOfLoad(b: seq<Byte>)
    ensures LittleEndian(Load(b), |b|) == b
  {
    if b != [] {
      LittleOfLoad(b[1..]);
      assert Load(b) % 256 == b[0] && Load(b) / 256 == Load(b[1..]);
    }
  }

  lemma {:induction false} ReversedTwice(b: seq<Byte>)
    ensures Reversed(Reversed(b)) == b
  {
    if b != [] {
      ReversedTwice(b[1..]);
      ReversedConcat(Reversed(b[1..]), b[0]);
    }
  }

  /** Storing a swapped number in memory order leaves its bytes in network order. */
  lemma StoredSwapped(v: nat, n: nat)
    ensures LittleEndian(Swap(v, n), n) == BigEndian(v, n)
  {
    var b := BigEndian(v, n);
    ReversedLittle(v, n);
    ReversedTwice(LittleEndian(v, n));
    LoadReversed(b);
    assert Swap(v, n) == Load(b);
    LittleOfLoad(b);
  }

  /** Loading bytes in memory order and swapping reads them in network order. */
  lemma LoadedSwapped(b: seq<Byte>)
    ensures Swap(Load(b), |b|) == Value(b)
  {
    LittleOfLoad(b);
  }

  datatype Header = Header(version: Byte, command: Byte, dstport: nat, dstaddr: nat)

  /** The header as the handler sees it, its numbers still in the order of the wire. */
  function ReadHeader(buf: seq<Byte>): Header
    requires HEADER <= |buf|
  {
    Header(buf[0], buf[1], Load(buf[2..4]), Load(buf[4..8]))
  }

  /** The text from position i up to the next NUL; None if the buffer has none. */
  function CString(buf: seq<Byte>, i: nat): (r: Option<seq<Byte>>)
    decreases |buf| - i
  {
    if i >= |buf| then None
    else if buf[i] == 0 then Some([])
    else
      match CString(buf, i + 1)
      case None => None
      case Some(s) => Some([buf[i]] + s)
  }

  /** 0.0.0.x with one to three digits, the first not zero. */
  predicate Socks4a(text: string) {
    && |text| in {7, 8, 9} && text[..6] == "0.0.0." && '1' <= text[6] <= '9'
    && forall i :: 7 <= i < |text| ==> IsDigit(text[i])
  }

  /** Where a request wants to go: an address, or a name to be resolved by the server.  Overrun
      when a text in the buffer has no end. */
  datatype Target = Address(addr: nat, port: nat) | Named(userid: seq<Byte>, domain: seq<Byte>, port: nat) | Overrun

  function ResolveTarget(buf: seq<Byte>): Target
    requires HEADER <= |buf|
  {
    var hdr := ReadHeader(buf);
    var addr, port := Swap(hdr.dstaddr, 4), Swap(hdr.dstport, 2);
    if Socks4a(AddressText(addr)) then
      match CString(buf, HEADER)
      case None => Overrun
      case Some(userid) =>
        match CString(buf, HEADER + |userid| + 1)
        case None => Overrun
        case Some(domain) => Named(userid, domain, port)
    else Address(addr, port)
  }

  predicate NulFree(s: seq<Byte>) {
    forall i :: 0 <= i < |s| ==> s[i] != 0
  }

  /** The request of the public protocol: the header, the user id, and for 4A the domain name. */
  function Request(command: Byte, port: nat, addr: nat, userid: seq<Byte>, domain: seq<Byte>): seq<Byte> {
    [4, command] + BigEndian(port, 2) + BigEndian(addr, 4) + userid + [0] + domain + [0]
  }

  lemma {:induction false} CStringAt(buf: seq<Byte>, i: nat, s: seq<Byte>)
    requires i + |s| < |buf| && buf[i..i + |s|] == s && buf[i + |s|] == 0 && NulFree(s)
    ensures CString(buf, i) == Some(s)
    decreases |s|
  {
    if s != [] {
      assert buf[i] == buf[i..i + |s|][0];
      assert buf[i + 1..i + |s|] == buf[i..i + |s|][1..];
      CStringAt(buf, i + 1, s[1..]);
      assert s == [s[0]] + s[1..];
    }
  }

  lemma {:induction false} DecimalShort(n: nat)
    requires n < 1000
    ensures |Decimal(n)| == (if n < 10 then 1 else if n < 100 then 2 else 3)
    ensures 0 < n ==> Decimal(n)[0] != '0'
  {
    if n >= 10 { DecimalShort(n / 10); }
  }

  lemma ZeroText(n: nat)
    requires n < 256
    ensures Decimal(n) == "0" <==> n == 0
    ensures Decimal(n)[0] == '0' <==> n == 0
  {
    DecimalShort(n);
  }

  /** An octet's text in front of the rest of an address. */
  function Octet(n: nat, rest: string): string {
    Decimal(n) + ("." + rest)
  }

  lemma JoinedQuad(n0: nat, n1: nat, n2: nat, n3: nat)
    ensures JoinDots([Decimal(n0), Decimal(n1), Decimal(n2), Decimal(n3)]) == Octet(n0, Octet(n1, Octet(n2, Decimal(n3))))
  {
    hide Decimal, JoinDots;
    var q3 := [Decimal(n3)];
    var q2 := [Decimal(n2), Decimal(n3)];
    var q1 := [Decimal(n1), Decimal(n2), Decimal(n3)];
    var q0 := [Decimal(n0), Decimal(n1), Decimal(n2), Decimal(n3)];
    JoinedOne(q3);
    JoinedNext(q2, q3);
    JoinedNext(q1, q2);
    JoinedNext(q0, q1);
  }

  lemma JoinedOne(q: seq<string>)
    requires |q| == 1
    ensures JoinDots(q) == q[0]
  {
  }

  lemma JoinedNext(q: seq<string>, more: seq<string>)
    requires |q| >= 2 && more == q[1..]
    ensures JoinDots(q) == q[0] + ("." + JoinDots(more))
  {
    Associates(q[0], JoinDots(more));
  }

  lemma Associates(a: string, b: string)
    ensures a + "." + b == a + ("." + b)
  {
  }

  /** A leading zero octet shows, and nothing else looks like one. */
  lemma ZeroFirst(n: nat, rest: string, z: string, z0: string)
    requires n < 256 && |z| <= |rest| && z0 == "0." + z
    ensures var s := Octet(n, rest);
            && |s| >= 2 + |rest|
            && (s[..2 + |z|] == z0 <==> n == 0 && rest[..|z|] == z)
            && (n == 0 ==> s == "0." + rest)
  {
    ZeroText(n);
    var s := Decimal(n) + ("." + rest);
    if n == 0 {
      assert s == "0." + rest;
      assert s[..2 + |z|] == "0." + rest[..|z|];
      assert (s[..2 + |z|])[2..] == rest[..|z|] && ("0." + z)[2..] == z;
    } else {
      assert s[..2 + |z|][0] == s[0] == Decimal(n)[0];
    }
  }

  lemma ThreeZeros(d: string)
    ensures "0." + ("0." + ("0." + d)) == "0.0.0." + d
    ensures "0." + "" == "0." && "0." + "0." == "0.0." && "0." + "0.0." == "0.0.0."
  {
  }

  lemma TextZeros(n0: nat, n1: nat, n2: nat, d: string)
    requires n0 < 256 && n1 < 256 && n2 < 256 && d != []
    ensures var s := Octet(n0, Octet(n1, Octet(n2, d)));
            && |s| >= 7 && (s[..6] == "0.0.0." <==> n0 == 0 && n1 == 0 && n2 == 0)
            && (n0 == 0 && n1 == 0 && n2 == 0 ==> s == "0.0.0." + d)
  {
    hide Octet;
    ThreeZeros(d);
    var z1, z2, z3 := "0.", "0.0.", "0.0.0.";
    ZeroFirst(n2, d, "", z1);
    ZeroFirst(n1, Octet(n2, d), z1, z2);
    ZeroFirst(n0, Octet(n1, Octet(n2, d)), z2, z3);
    assert d[..0] == "";
  }

  /** The text of an address starts with three zero octets exactly when its value is below 256. */
  lemma ZerosFirst(a: nat)
    requires a < 0x1_0000_0000
    ensures |AddressText(a)| >= 7 && (AddressText(a)[..6] == "0.0.0." <==> a < 256)
    ensures a < 256 ==> AddressText(a) == "0.0.0." + Decimal(a)
  {
    hide Decimal, JoinDots, Octet;
    JoinedQuad(a / 0x1000000 % 256, a / 0x10000 % 256, a / 0x100 % 256, a % 256);
    OctetsZero(a);
    TextZeros(a / 0x1000000 % 256, a / 0x10000 % 256, a / 0x100 % 256, Decimal(a % 256));
  }

  lemma OctetsZero(a: nat)
    requires a < 0x1_0000_0000
    ensures a < 256 <==> a / 0x1000000 % 256 == 0 && a / 0x10000 % 256 == 0 && a / 0x100 % 256 == 0
    ensures a < 256 ==> a % 256 == a
  {
  }

  /** The domain-name branch is taken exactly for addresses with a value from 1 to 255. */
  lemma NameBranch(a: nat)
    requires a < 0x1_0000_0000
    ensures Socks4a(AddressText(a)) <==> 1 <= a <= 255
  {
    hide AddressText;
    ZerosFirst(a);
    var s := AddressText(a);
    if a < 256 {
      DecimalShort(a);
      ZeroText(a);
      var d := Decimal(a);
      assert s[..6] == "0.0.0.";
      assert forall i :: 6 <= i < |s| ==> s[i] == d[i - 6];
    }
  }

  lemma HeaderRead(buf: seq<Byte>, version: Byte, command: Byte, port: nat, addr: nat)
    requires HEADER <= |buf| && buf[..8] == [version, command] + BigEndian(port, 2) + BigEndian(addr, 4)
    requires port < 0x1_0000 && addr < 0x1_0000_0000
    ensures Swap(ReadHeader(buf).dstport, 2) == port && Swap(ReadHeader(buf).dstaddr, 4) == addr
    ensures ReadHeader(buf).command == command
  {
    assert buf[2..4] == buf[..8][2..4] == BigEndian(port, 2);
    assert buf[4..8] == buf[..8][4..8] == BigEndian(addr, 4);
    LoadedSwapped(buf[2..4]);
    LoadedSwapped(buf[4..8]);
    assert Power(2) == 0x1_0000 && Power(4) == 0x1_0000_0000;
    ValueBigEndian(port, 2);
    ValueBigEndian(addr, 4);
    assert buf[1] == buf[..8][1];
  }

  /** What the handler makes of any request of the protocol at the start of its buffer: for
      addresses from 1 to 255 exactly the user id and the domain name sent, otherwise exactly the
      address, and the port in both cases. */
  lemma RequestRead(buf: seq<Byte>, command: Byte, port: nat, addr: nat, userid: seq<Byte>, domain: seq<Byte>)
    requires port < 0x1_0000 && addr < 0x1_0000_0000 && NulFree(userid) && NulFree(domain)
    requires Request(command, port, addr, userid, domain) <= buf
    ensures ResolveTarget(buf) == if 1 <= addr <= 255 then Named(userid, domain, port) else Address(addr, port)
  {
    hide Socks4a, AddressText, BigEndian, Swap, ReadHeader, CString;
    var r := Request(command, port, addr, userid, domain);
    var n := HEADER + |userid| + 1;
    assert buf[..8] == r[..8] == [4, command] + BigEndian(port, 2) + BigEndian(addr, 4);
    HeaderRead(buf, 4, command, port, addr);
    NameBranch(addr);
    assert buf[HEADER..HEADER + |userid|] == r[HEADER..HEADER + |userid|] == userid;
    assert buf[HEADER + |userid|] == r[HEADER + |userid|] == 0;
    CStringAt(buf, HEADER, userid);
    assert buf[n..n + |domain|] == r[n..n + |domain|] == domain;
    assert buf[n + |domain|] == r[n + |domain|] == 0;
    CStringAt(buf, n, domain);
  }

  /** Storing a number of n bytes into a buffer in the machine's order. */
  method Store(a: array<Byte>, at: nat, v: nat, n: nat)
    requires at + n <= a.Length
    modifies a
    ensures a[..] == old(a[..at]) + LittleEndian(v, n) + old(a[at + n..])
  {
    var i, rest := 0, v;
    while i < n
      invariant 0 <= i <= n && rest >= 0
      invariant a[..at + i] + LittleEndian(rest, n - i) == old(a[..at]) + LittleEndian(v, n)
      invariant a[at + n..] == old(a[at + n..])
    {
      ghost var before, tail := a[..at + i], LittleEndian(rest, n - i);
      a[at + i] := rest % 256;
      assert a[..at + i] == before && a[..at + i + 1] == before + [rest % 256];
      assert tail == [rest % 256] + LittleEndian(rest / 256, n - i - 1);
      rest := rest / 256;
      i := i + 1;
    }
    assert a[..] == a[..at + n] + a[at + n..];
  }

  const Prepared: seq<Byte> := [4, 1, 0, 0, 0, 0, 0, 0, 'M' as int, 'E' as int, 'O' as int, 'W' as int, 0]

  /** The request the CGI server writes for an endpoint. */
  function ProxyRequest(port: nat, addr: nat): seq<Byte> {
    [4, 1] + BigEndian(port, 2) + BigEndian(addr, 4) + ['M' as int, 'E' as int, 'O' as int, 'W' as int, 0]
  }

  /** The prepared bytes with the port, and with port and address, written over them. */
  lemma Overwritten(port: nat, addr: nat, b: seq<Byte>)
    requires b == Prepared[..2] + BigEndian(port, 2) + Prepared[4..]
    ensures b[..4] + BigEndian(addr, 4) + b[8..] == ProxyRequest(port, addr)
  {
    hide BigEndian;
    assert b[..4] == [4, 1] + BigEndian(port, 2) && b[8..] == Prepared[8..];
  }

  /** The endpoint's numbers are swapped and stored over the prepared bytes. */
  method ConnectProxy(port: nat, addr: nat) returns (socks4Request: array<Byte>)
    ensures fresh(socks4Request) && socks4Request[..] == ProxyRequest(port, addr)
  {
    hide BigEndian, LittleEndian, Swap, ProxyRequest;
    socks4Request := new Byte[13](i requires 0 <= i < 13 => Prepared[i]);
    ghost var b0 := socks4Request[..];
    assert b0 == Prepared && b0[..2] == socks4Request[..2] && b0[4..] == socks4Request[4..];
    Store(socks4Request, 2, Swap(port, 2), 2);
    StoredSwapped(port, 2);
    ghost var b1 := socks4Request[..];
    Overwritten(port, addr, b1);
    assert b1[..4] == socks4Request[..4] && b1[8..] == socks4Request[8..];
    Store(socks4Request, 4, Swap(addr, 4), 4);
    StoredSwapped(addr, 4);
  }

  /** The handler finds the CGI server's endpoint in its request exactly when the address is not
      from 1 to 255; for those it looks for a domain name the request does not have. */
  lemma ProxyRead(buf: seq<Byte>, port: nat, addr: nat)
    requires port < 0x1_0000 && addr < 0x1_0000_0000 && ProxyRequest(port, addr) <= buf
    ensures ResolveTarget(buf) == Address(addr, port) <==> !(1 <= addr <= 255)
  {
    hide Socks4a, AddressText, BigEndian, Swap, ReadHeader, CString;
    assert buf[..8] == ProxyRequest(port, addr)[..8] == [4, 1] + BigEndian(port, 2) + BigEndian(addr, 4);
    HeaderRead(buf, 4, 1, port, addr);
    NameBranch(addr);
  }

  /** Nothing from beyond the buffer is needed exactly when both texts end inside it. */
  lemma {:induction false} CStringEnds(buf: seq<Byte>, i: nat)
    ensures CString(buf, i).Some? <==> exists j :: i <= j < |buf| && buf[j] == 0
    ensures CString(buf, i).Some? ==>
              var s := CString(buf, i).value; NulFree(s) && i + |s| < |buf| && buf[i..i + |s|] == s && buf[i + |s|] == 0
    decreases |buf| - i
  {
    if i < |buf| && buf[i] != 0 {
      CStringEnds(buf, i + 1);
      if CString(buf, i + 1).Some? {
        var s := CString(buf, i + 1).value;
        assert buf[i..i + 1 + |s|] == [buf[i]] + buf[i + 1..i + 1 + |s|];
      }
    }
  }

  /** The request for port 80 of 0.0.0.1, in a buffer with nothing else in it, is not read back. */
  lemma LowAddress()
    ensures ResolveTarget(ProxyRequest(80, 1)) != Address(1, 80)
  {
    ProxyRead(ProxyRequest(80, 1), 80, 1);
  }
}
