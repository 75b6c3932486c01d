/**
 From the bytes of a SOCKS request and the text of the configuration to the answer: which octet of
 the address is held against which part of a rule, written out.
 */
module Requests {
  import opened Text
  import opened Firewall
  import opened Socks

  lemma TwoBytes(v: nat)
    requires v < 0x1_0000
    ensures BigEndian(v, 2) == [v / 256, v % 256]
  {
    assert BigEndian(v / 256, 1) == BigEndian(v / 256 / 256, 0) + [v / 256 % 256];
  }

  lemma FourBytes(v: nat)
    requires v < 0x1_0000_0000
    ensures BigEndian(v, 4) == [v / 16777216, v / 65536 % 256, v / 256 % 256, v % 256]
  {
    assert BigEndian(v, 4) == BigEndian(v / 256, 3) + [v % 256];
    assert BigEndian(v / 256, 3) == BigEndian(v / 65536, 2) + [v / 256 % 256];
    TwoBytes(v / 65536);
  }

  /** On the wire a request is the version, the command, the port and the address, most significant
      byte first, then the texts; and the one the CGI server sends has the user MEOW. */
  lemma OnTheWire(command: Byte, port: nat, addr: nat, userid: seq<Byte>, domain: seq<Byte>)
    requires port < 65536 && addr < 4294967296
    ensures Request(command, port, addr, userid, domain)
         == [4, command, port / 256, port % 256, addr / 16777216, addr / 65536 % 256, addr / 256 % 256, addr % 256]
              + userid + [0] + domain + [0]
    ensures ProxyRequest(port, addr)
         == [4, 1, port / 256, port % 256, addr / 16777216, addr / 65536 % 256, addr / 256 % 256, addr % 256, 77, 69, 79, 87, 0]
  {
    TwoBytes(port);
    FourBytes(addr);
  }

  /** Four bytes, most significant first. */
  function Big(b0: int, b1: int, b2: int, b3: int): int {
    b0 * 16777216 + b1 * 65536 + b2 * 256 + b3
  }

  lemma ValueTwo(b: seq<Byte>)
    requires |b| == 2
    ensures Value(b) == (b[0] as int) * 256 + b[1]
  {
    assert Value(b[..1]) == 256 * Value(b[..1][..0]) + b[0];
  }

  lemma ValueFour(b: seq<Byte>)
    requires |b| == 4
    ensures Value(b) == Big(b[0], b[1], b[2], b[3])
  {
    assert b[..3][..2] == b[..2];
    ValueTwo(b[..2]);
  }

  /** The text of an address: the decimals of its bytes in the order of the wire. */
  function Dotted(b0: Byte, b1: Byte, b2: Byte, b3: Byte): string {
    Decimal(b0) + "." + Decimal(b1) + "." + Decimal(b2) + "." + Decimal(b3)
  }

  lemma JoinFour(a: string, b: string, c: string, d: string)
    ensures JoinDots([a, b, c, d]) == a + "." + b + "." + c + "." + d
  {
    var q3, q2 := [c, d], [b, c, d];
    assert [a, b, c, d][1..] == q2 && q2[1..] == q3 && q3[1..] == [d];
    assert JoinDots(q3) == c + "." + d;
    assert JoinDots(q2) == b + "." + (c + "." + d);
  }

  lemma Octets(b0: Byte, b1: Byte, b2: Byte, b3: Byte)
    ensures var a := Big(b0, b1, b2, b3);
            && 0 <= a < 0x1_0000_0000
            && a / 0x1000000 == b0 && a / 0x10000 == (b0 as int) * 256 + b1
            && a / 0x100 == (b0 as int) * 65536 + (b1 as int) * 256 + b2 && a % 256 == b3
  {
  }

  lemma Remainders(b0: Byte, b1: Byte, b2: Byte)
    ensures (b0 as int) % 256 == b0 && ((b0 as int) * 256 + b1) % 256 == b1
    ensures ((b0 as int) * 65536 + (b1 as int) * 256 + b2) % 256 == b2
  {
  }

  lemma AddressOf(b0: Byte, b1: Byte, b2: Byte, b3: Byte)
    ensures Big(b0, b1, b2, b3) >= 0 && AddressText(Big(b0, b1, b2, b3)) == Dotted(b0, b1, b2, b3)
  {
    hide Decimal, JoinDots, Dotted, Big;
    Octets(b0, b1, b2, b3);
    Remainders(b0, b1, b2);
    JoinFour(Decimal(b0), Decimal(b1), Decimal(b2), Decimal(b3));
    DottedIs(b0, b1, b2, b3);
  }

  lemma DottedIs(b0: Byte, b1: Byte, b2: Byte, b3: Byte)
    ensures Dotted(b0, b1, b2, b3) == Decimal(b0) + "." + Decimal(b1) + "." + Decimal(b2) + "." + Decimal(b3)
  {
  }

  /** The numbers of a request are its bytes in the order of the wire. */
  lemma HeaderNumbers(buf: seq<Byte>)
    requires HEADER <= |buf|
    ensures var h := ReadHeader(buf);
            && Swap(h.dstport, 2) == (buf[2] as int) * 256 + buf[3]
            && Swap(h.dstaddr, 4) == Big(buf[4], buf[5], buf[6], buf[7])
            && h.command == buf[1]
  {
    hide Swap, Load, Value;
    LoadedSwapped(buf[2..4]);
    LoadedSwapped(buf[4..8]);
    ValueTwo(buf[2..4]);
    ValueFour(buf[4..8]);
  }

  /** Where a request wants to go, by its bytes: to the name it holds behind the user's if the address
      is 0.0.0.x with x not 0, and to its address otherwise. */
  lemma TargetOf(buf: seq<Byte>)
    requires 8 <= |buf|
    ensures var port := (buf[2] as int) * 256 + buf[3];
            if buf[4] == 0 && buf[5] == 0 && buf[6] == 0 && buf[7] != 0 then
              forall i, j :: 8 <= i < j < |buf| && buf[i] == 0 == buf[j] && 0 !in buf[8..i] && 0 !in buf[i + 1..j] ==>
                ResolveTarget(buf) == Named(buf[8..i], buf[i + 1..j], port)
            else ResolveTarget(buf) == Address(Big(buf[4], buf[5], buf[6], buf[7]), port)
  {
    hide Swap, ReadHeader, AddressText, Socks4a, CString;
    HeaderNumbers(buf);
    var addr := Big(buf[4], buf[5], buf[6], buf[7]);
    Octets(buf[4], buf[5], buf[6], buf[7]);
    NameBranch(addr);
    if 1 <= addr <= 255 {
      forall i, j | 8 <= i < j < |buf| && buf[i] == 0 == buf[j] && 0 !in buf[8..i] && 0 !in buf[i + 1..j]
        ensures ResolveTarget(buf) == Named(buf[8..i], buf[i + 1..j], (buf[2] as int) * 256 + buf[3])
      {
        CStringAt(buf, 8, buf[8..i]);
        CStringAt(buf, i + 1, buf[i + 1..j]);
      }
    }
  }

  /** What is asked of a part of a rule: a star, or an octet's decimal. */
  predicate SimplePart(p: string) {
    p == "*" || (p != "" && forall i :: 0 <= i < |p| ==> '0' <= p[i] <= '9')
  }

  /** A rule of four such parts permits an address of its kind exactly if each part is a star or the
      decimal of the byte in the same place. */
  lemma PermitsOctets(kind: char, p0: string, p1: string, p2: string, p3: string, connect: bool, b0: Byte, b1: Byte, b2: Byte, b3: Byte)
    requires SimplePart(p0) && SimplePart(p1) && SimplePart(p2) && SimplePart(p3)
    ensures NoMeta(p0 + "." + p1 + "." + p2 + "." + p3)
    ensures Permits(Rule(kind, p0 + "." + p1 + "." + p2 + "." + p3), connect, Dotted(b0, b1, b2, b3)) <==>
              && (if connect then kind == 'c' else kind != 'c')
              && (p0 == "*" || p0 == Decimal(b0)) && (p1 == "*" || p1 == Decimal(b1))
              && (p2 == "*" || p2 == Decimal(b2)) && (p3 == "*" || p3 == Decimal(b3))
  {
    hide Wild, Decimal, Dotted, JoinDots, SimplePart, NoMeta;
    var ps, qs := [p0, p1, p2, p3], [Decimal(b0), Decimal(b1), Decimal(b2), Decimal(b3)];
    JoinFour(p0, p1, p2, p3);
    JoinFour(Decimal(b0), Decimal(b1), Decimal(b2), Decimal(b3));
    DottedIs(b0, b1, b2, b3);
    SimpleParts(p0, b0);
    SimpleParts(p1, b1);
    SimpleParts(p2, b2);
    SimpleParts(p3, b3);
    JoinedPlain(ps);
    PartWise(ps, qs);
    assert Wild(JoinDots(ps), JoinDots(qs)) <==> Wild(p0, qs[0]) && Wild(p1, qs[1]) && Wild(p2, qs[2]) && Wild(p3, qs[3]);
  }

  lemma SimpleParts(p: string, b: Byte)
    requires SimplePart(p)
    ensures RulePart(p) && '.' !in p && '.' !in Decimal(b)
    ensures Wild(p, Decimal(b)) <==> p == "*" || p == Decimal(b)
  {
    hide Wild, Decimal;
    DecimalPlain(b);
    PartMatches(p, Decimal(b));
    assert p != "*" ==> '*' !in p;
  }

  /** A line of the configuration is a word that is skipped, a character and a word, with any blanks
      between them. */
  lemma LineOfConf(blanks: string, action: string, kind: char, pattern: string, rest: string)
    requires forall i :: 0 <= i < |blanks| ==> blanks[i] in " \t\n\r" || blanks[i] == 11 as char || blanks[i] == 12 as char
    requires IsWord(action) && IsWord([kind]) && IsWord(pattern)
    ensures Rules("") == []
    ensures Rules(blanks + (action + " " + [kind] + " " + pattern + "\n" + rest)) == [Rule(kind, pattern)] + Rules(rest)
  {
    var r := Rule(kind, pattern);
    assert !IsSpace([kind][0]);
    LineRead(action, r, rest);
    SpaceFirst(rest);
    RulesNone();
    var t := action + " " + [kind] + " " + pattern + "\n" + rest;
    assert RuleLine(action, r) + rest == t;
    SkipBlanks(blanks, t);
  }

  /** What becomes of a request: it is served, it is rejected, or the handler ends by an exception or
      by reading past its buffer. */
  datatype Answer = Served(command: Byte, addr: nat, port: nat) | Rejected(reply: seq<Byte>) | Thrown | PastBuffer

  /** Resolving a domain name is up to the network; None when it fails. */
  type Resolver = (seq<Byte>, nat) -> Option<nat>

  /** A request, the permission for the address it resolves to, and the answer. */
  method HandleRead(regex: Library, conf: Option<string>, resolve: Resolver, buf: seq<Byte>) returns (answer: Answer)
    requires HEADER <= |buf| && forall d, p :: resolve(d, p).Some? ==> resolve(d, p).value < 4294967296
    ensures answer.Rejected? ==> answer.reply == [0, 91, 0, 0, 0, 0, 0, 0]
    ensures var port := (buf[2] as int) * 256 + buf[3];
            var to := ResolveTarget(buf);
            var addr := if to.Named? then resolve(to.domain, port) else Some(Big(buf[4], buf[5], buf[6], buf[7]));
            if to.Overrun? then answer == PastBuffer
            else if addr.None? then answer == Thrown
            else
              var allowed := if conf.None? then Some(false) else Decide(regex, Rules(conf.value), buf[1] == 1, AddressText(addr.value));
              if allowed.None? then answer == Thrown
              else if allowed.value then answer == Served(buf[1], addr.value, port)
              else answer.Rejected?
  {
    hide Decide, Rules, AddressText, Swap, ReadHeader, CString, Socks4a;
    HeaderNumbers(buf);
    TargetOf(buf);
    NamedPort(buf);
    var hdr := ReadHeader(buf);
    var to := ResolveTarget(buf);
    var addr: nat;
    match to {
      case Overrun => return PastBuffer;
      case Named(_, domain, port) =>
        var found := resolve(domain, port);
        if found.None? { return Thrown; }
        addr := found.value;
      case Address(a, _) => addr := a;
    }
    var command := hdr.command == 1;
    var allowed := IsDestinationIPAddressAllowed(regex, conf, AddressText(addr), command);
    if allowed.None? { return Thrown; }
    if allowed.value {
      return Served(hdr.command, addr, to.port);
    }
    return Rejected([0, 91, 0, 0, 0, 0, 0, 0]);
  }

  lemma NamedPort(buf: seq<Byte>)
    requires HEADER <= |buf|
    ensures var to := ResolveTarget(buf); !to.Overrun? ==> to.port == (buf[2] as int) * 256 + buf[3]
    ensures var to := ResolveTarget(buf); to.Address? ==> to.addr == Big(buf[4], buf[5], buf[6], buf[7])
  {
    hide Swap, ReadHeader, CString, Socks4a, AddressText;
    HeaderNumbers(buf);
  }

  /** The decision on a request for an address, by its bytes, under rules of four simple parts: access
      exactly if there is a rule of the request's kind each part of which is a star or the decimal of
      the byte in the same place. */
  lemma DecidedByOctets(regex: Library, rs: seq<Rule>, buf: seq<Byte>)
    requires Faithful(regex) && 8 <= |buf| && !(buf[4] == 0 && buf[5] == 0 && buf[6] == 0 && buf[7] != 0)
    requires forall r :: r in rs ==> exists p0, p1, p2, p3 :: Quartered(r.pattern, p0, p1, p2, p3)
    ensures Decide(regex, rs, buf[1] == 1, Dotted(buf[4], buf[5], buf[6], buf[7]))
         == Some(exists r, p0, p1, p2, p3 ::
                   && r in rs && Quartered(r.pattern, p0, p1, p2, p3) && (if buf[1] == 1 then r.kind == 'c' else r.kind != 'c')
                   && (p0 == "*" || p0 == Decimal(buf[4])) && (p1 == "*" || p1 == Decimal(buf[5]))
                   && (p2 == "*" || p2 == Decimal(buf[6])) && (p3 == "*" || p3 == Decimal(buf[7])))
  {
    hide Decide, Permits, Wild, Decimal, Dotted, SimplePart, NoMeta, Faithful;
    var ip := Dotted(buf[4], buf[5], buf[6], buf[7]);
    forall r, p0, p1, p2, p3 | r in rs && Quartered(r.pattern, p0, p1, p2, p3)
      ensures NoMeta(r.pattern)
      ensures Permits(r, buf[1] == 1, ip) <==>
                && (if buf[1] == 1 then r.kind == 'c' else r.kind != 'c')
                && (p0 == "*" || p0 == Decimal(buf[4])) && (p1 == "*" || p1 == Decimal(buf[5]))
                && (p2 == "*" || p2 == Decimal(buf[6])) && (p3 == "*" || p3 == Decimal(buf[7]))
    {
      PermitsOctets(r.kind, p0, p1, p2, p3, buf[1] == 1, buf[4], buf[5], buf[6], buf[7]);
      assert r == Rule(r.kind, r.pattern);
    }
    SomePermits(regex, rs, buf[1] == 1, ip);
  }

  predicate Quartered(pattern: string, p0: string, p1: string, p2: string, p3: string) {
    && pattern == p0 + "." + p1 + "." + p2 + "." + p3
    && SimplePart(p0) && SimplePart(p1) && SimplePart(p2) && SimplePart(p3)
  }
}
