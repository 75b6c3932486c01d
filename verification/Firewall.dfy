/**
 The SOCKS server's firewall: rules with wildcards are rewritten to regular expressions, and an
 address is let through when some rule of the right kind matches it.
 */
module Firewall {
  import opened Text
  import opened Replacing

  /** One element of the regular expressions that come up here: a character or any character but a
      line break, once or any number of times. */
  datatype Item = Item(atom: Atom, many: bool)
  datatype Atom = Exactly(c: char) | AnyChar

  predicate LineBreak(c: char) {
    c == '\n' || c == '\r'
  }

  predicate Fits(a: Atom, c: char) {
    match a
    case Exactly(d) => c == d
    case AnyChar => !LineBreak(c)
  }

  /** regex_match: the whole of s is in the language of the expression. */
  predicate Matches(re: seq<Item>, s: string)
    decreases |re|, |s|
  {
    if re == [] then s == []
    else if re[0].many then
      || Matches(re[1..], s)
      || (s != [] && Fits(re[0].atom, s[0]) && Matches(re, s[1..]))
    else s != [] && Fits(re[0].atom, s[0]) && Matches(re[1..], s[1..])
  }

  /** The characters with a meaning of their own in a regular expression, apart from `.` and `*`. */
  predicate Meta(c: char) {
    c in "\\^$+?()[]{}|"
  }

  /** Reading a pattern: `\.` is a dot, `.` any character, and a following `*` repeats.  A
      repetition of nothing is an error, as is anything that uses another special character. */
  function Compile(p: string): Option<seq<Item>>
    decreases |p|, 0
  {
    if p == [] then Some([])
    else if p[0] == '\\' then
      if |p| >= 2 && p[1] == '.' then Repeat(Exactly('.'), p[2..]) else None
    else if Meta(p[0]) || p[0] == '*' then None
    else Repeat(if p[0] == '.' then AnyChar else Exactly(p[0]), p[1..])
  }

  function Repeat(a: Atom, rest: string): Option<seq<Item>>
    decreases |rest|, 1
  {
    var many := rest != [] && rest[0] == '*';
    match Compile(if many then rest[1..] else rest)
    case None => None
    case Some(re) => Some([Item(a, many)] + re)
  }

  /** What one character of a rule is rewritten to. */
  function Rewrite(c: char): string {
    if c == '.' then "\\." else if c == '*' then ".*" else [c]
  }

  function OnePass(rule: string): string {
    if rule == [] then [] else Rewrite(rule[0]) + OnePass(rule[1..])
  }

  /** Escaping dots first and rewriting stars afterwards is one pass over the characters. */
  lemma {:induction false} TwoPasses(rule: string)
    ensures Expand(Expand(rule, '.', "\\."), '*', ".*") == OnePass(rule)
  {
    if rule != [] {
      TwoPasses(rule[1..]);
      var first := if rule[0] == '.' then "\\." else [rule[0]];
      ExpandConcat(first, Expand(rule[1..], '.', "\\."), '*', ".*");
      if rule[0] == '*' {
        assert [rule[0]][1..] == [];
        assert Expand([rule[0]], '*', ".*") == ".*";
      } else {
        ExpandWithout(first, '*', ".*");
      }
    }
  }

  /** Two replacement loops, one after the other. */
  method ConvertToRegexPattern(rule: string) returns (str: string)
    ensures str == OnePass(rule)
  {
    str := ReplaceEach(rule, '.', "\\.");
    str := ReplaceEach(str, '*', ".*");
    TwoPasses(rule);
  }

  predicate Unbroken(s: string) {
    forall i :: 0 <= i < |s| ==> !LineBreak(s[i])
  }

  /** Wildcard matching: `*` stands for any text without line breaks, everything else for itself. */
  predicate Wild(rule: string, s: string)
    decreases |rule|
  {
    if rule == [] then s == []
    else if rule[0] == '*' then exists k :: 0 <= k <= |s| && Unbroken(s[..k]) && Wild(rule[1..], s[k..])
    else s != [] && s[0] == rule[0] && Wild(rule[1..], s[1..])
  }

  predicate NoMeta(rule: string) {
    forall i :: 0 <= i < |rule| ==> !Meta(rule[i])
  }

  /** The expression a rule is rewritten to. */
  function Items(rule: string): seq<Item> {
    if rule == [] then []
    else [if rule[0] == '*' then Item(AnyChar, true) else Item(Exactly(rule[0]), false)] + Items(rule[1..])
  }

  lemma OnePassStart(rule: string)
    ensures OnePass(rule) == [] || OnePass(rule)[0] != '*'
  {
  }

  lemma {:induction false} Compiled(rule: string)
    requires NoMeta(rule)
    ensures Compile(OnePass(rule)) == Some(Items(rule))
    decreases |rule|
  {
    if rule != [] {
      var rest := OnePass(rule[1..]);
      Compiled(rule[1..]);
      OnePassStart(rule[1..]);
      var p := OnePass(rule);
      assert p == Rewrite(rule[0]) + rest;
      if rule[0] == '.' {
        assert p[2..] == rest;
      } else if rule[0] == '*' {
        assert p[1..] == "*" + rest && p[1..][1..] == rest;
      } else {
        assert !Meta(rule[0]);
        assert p[1..] == rest;
      }
    }
  }

  lemma {:induction false} StarSkips(re: seq<Item>, s: string, k: nat)
    requires re != [] && re[0] == Item(AnyChar, true) && k <= |s| && Unbroken(s[..k]) && Matches(re[1..], s[k..])
    ensures Matches(re, s)
    decreases k
  {
    if k == 0 {
      assert s[0..] == s;
    } else {
      assert s[1..][..k - 1] == s[..k][1..] && s[1..][k - 1..] == s[k..];
      assert !LineBreak(s[..k][0]);
      StarSkips(re, s[1..], k - 1);
    }
  }

  lemma {:induction false} StarSkipped(re: seq<Item>, s: string) returns (k: nat)
    requires re != [] && re[0] == Item(AnyChar, true) && Matches(re, s)
    ensures k <= |s| && Unbroken(s[..k]) && Matches(re[1..], s[k..])
    decreases |s|
  {
    if Matches(re[1..], s) {
      k := 0;
      assert s[0..] == s;
    } else {
      var j := StarSkipped(re, s[1..]);
      k := j + 1;
      assert s[1..][j..] == s[k..] && s[..k] == [s[0]] + s[1..][..j];
    }
  }

  lemma {:induction false} ItemsMatch(rule: string, s: string)
    ensures Matches(Items(rule), s) <==> Wild(rule, s)
    decreases |rule|
  {
    if rule != [] {
      var re := Items(rule);
      assert re[1..] == Items(rule[1..]);
      if rule[0] == '*' {
        if Matches(re, s) {
          var k := StarSkipped(re, s);
          ItemsMatch(rule[1..], s[k..]);
        }
        if Wild(rule, s) {
          var k :| 0 <= k <= |s| && Unbroken(s[..k]) && Wild(rule[1..], s[k..]);
          ItemsMatch(rule[1..], s[k..]);
          StarSkips(re, s, k);
        }
      } else if s != [] {
        ItemsMatch(rule[1..], s[1..]);
      }
    }
  }

  /** Rewriting preserves meaning: for rules without other special characters, the rewritten
      pattern is a valid regular expression and matches exactly what the rule matches. */
  lemma RewritingMeans(rule: string, s: string)
    requires NoMeta(rule)
    ensures Compile(OnePass(rule)).Some?
    ensures Matches(Compile(OnePass(rule)).value, s) <==> Wild(rule, s)
  {
    Compiled(rule);
    ItemsMatch(rule, s);
  }

  function Dots(s: string): nat {
    if s == [] then 0 else (if s[0] == '.' then 1 else 0) + Dots(s[1..])
  }

  lemma {:induction false} DotsConcat(a: string, b: string)
    ensures Dots(a + b) == Dots(a) + Dots(b)
    decreases |a|
  {
    if a == [] {
      assert a + b == b;
    } else {
      assert (a + b)[1..] == a[1..] + b;
      DotsConcat(a[1..], b);
    }
  }

  lemma {:induction false} NoDots(s: string)
    ensures Dots(s) == 0 <==> '.' !in s
    decreases |s|
  {
    if s != [] { NoDots(s[1..]); }
  }

  /** A rule's dots each take up a dot of the text. */
  lemma {:induction false} DotCount(rule: string, s: string)
    requires Wild(rule, s)
    ensures Dots(rule) <= Dots(s)
    decreases |rule|
  {
    if rule != [] {
      if rule[0] == '*' {
        var k :| 0 <= k <= |s| && Unbroken(s[..k]) && Wild(rule[1..], s[k..]);
        DotCount(rule[1..], s[k..]);
        assert s == s[..k] + s[k..];
        DotsConcat(s[..k], s[k..]);
      } else {
        DotCount(rule[1..], s[1..]);
      }
    }
  }

  /** When the dots of rule and text are as many, no star can take up a dot, and the text before
      the first dot goes with the rule before its first dot. */
  lemma {:induction false} FirstPart(p: string, more: string, q: string, rest: string)
    requires '.' !in p && '.' !in q && Dots(more) == Dots(rest)
    ensures Wild(p + "." + more, q + "." + rest) ==> Wild(p, q) && Wild(more, rest)
    decreases |p|
  {
    var rule, s := p + "." + more, q + "." + rest;
    assert s[0] == if q == [] then '.' else q[0];
    if Wild(rule, s) {
      if p == [] {
        assert rule[0] == '.' && rule[1..] == more;
        assert s[1..] == rest;
      } else {
        assert rule[0] == p[0] && rule[1..] == p[1..] + "." + more;
        if p[0] == '*' {
          var k :| 0 <= k <= |s| && Unbroken(s[..k]) && Wild(rule[1..], s[k..]);
          if k > |q| {
            TooFew(p[1..], more, q, rest, k);
          } else {
            assert s[k..] == q[k..] + "." + rest;
            FirstPart(p[1..], more, q[k..], rest);
            assert s[..k] == q[..k];
          }
        } else {
          assert s[1..] == q[1..] + "." + rest;
          FirstPart(p[1..], more, q[1..], rest);
        }
      }
    }
  }

  /** Past the first dot the text has too few dots left. */
  lemma TooFew(p: string, more: string, q: string, rest: string, k: nat)
    requires Dots(more) == Dots(rest) && |q| < k <= |q + "." + rest|
    ensures !Wild(p + "." + more, (q + "." + rest)[k..])
  {
    var s := q + "." + rest;
    var j := k - |q| - 1;
    assert s[k..] == rest[j..];
    assert rest == rest[..j] + rest[j..];
    DotsConcat(rest[..j], rest[j..]);
    DotsConcat(p + ".", more);
    DotsConcat(p, ".");
    assert "."[1..] == [];
    if Wild(p + "." + more, s[k..]) { DotCount(p + "." + more, s[k..]); }
  }

  lemma {:induction false} WildConcat(p: string, more: string, q: string, rest: string)
    requires Wild(p, q) && Wild(more, rest)
    ensures Wild(p + more, q + rest)
    decreases |p|
  {
    if p == [] {
      assert p + more == more && q + rest == rest;
    } else {
      assert (p + more)[1..] == p[1..] + more;
      if p[0] == '*' {
        var k :| 0 <= k <= |q| && Unbroken(q[..k]) && Wild(p[1..], q[k..]);
        WildConcat(p[1..], more, q[k..], rest);
        assert (q + rest)[k..] == q[k..] + rest && (q + rest)[..k] == q[..k];
      } else {
        assert (q + rest)[1..] == q[1..] + rest;
        WildConcat(p[1..], more, q[1..], rest);
      }
    }
  }

  function JoinDots(parts: seq<string>): string
    requires parts != []
  {
    if |parts| == 1 then parts[0] else parts[0] + "." + JoinDots(parts[1..])
  }

  predicate DotFree(parts: seq<string>) {
    forall i :: 0 <= i < |parts| ==> '.' !in parts[i]
  }

  lemma {:induction false} JoinedDots(parts: seq<string>)
    requires parts != [] && DotFree(parts)
    ensures Dots(JoinDots(parts)) == |parts| - 1
    decreases |parts|
  {
    NoDots(parts[0]);
    if |parts| > 1 {
      JoinedDots(parts[1..]);
      DotsConcat(parts[0] + ".", JoinDots(parts[1..]));
      DotsConcat(parts[0], ".");
      assert "."[1..] == [];
    }
  }

  lemma AllParts(ps: seq<string>, qs: seq<string>)
    requires ps != [] && |ps| == |qs|
    ensures (forall i :: 0 <= i < |ps| ==> Wild(ps[i], qs[i])) <==>
              Wild(ps[0], qs[0]) && forall i :: 0 <= i < |ps[1..]| ==> Wild(ps[1..][i], qs[1..][i])
  {
    hide Wild;
    if Wild(ps[0], qs[0]) && forall i :: 0 <= i < |ps[1..]| ==> Wild(ps[1..][i], qs[1..][i]) {
      forall i | 0 <= i < |ps|
        ensures Wild(ps[i], qs[i])
      {
        if i > 0 {
          var j := i - 1;
          assert Wild(ps[1..][j], qs[1..][j]);
        }
      }
    }
  }

  /** Part-wise meaning: rules and texts of equally many dot-separated parts match exactly when
      each part of the text matches the same part of the rule. */
  lemma {:induction false} PartWise(ps: seq<string>, qs: seq<string>)
    requires ps != [] && |ps| == |qs| && DotFree(ps) && DotFree(qs)
    ensures Wild(JoinDots(ps), JoinDots(qs)) <==> forall i :: 0 <= i < |ps| ==> Wild(ps[i], qs[i])
    decreases |ps|
  {
    if |ps| > 1 {
      var more, rest := JoinDots(ps[1..]), JoinDots(qs[1..]);
      JoinedDots(ps[1..]);
      JoinedDots(qs[1..]);
      FirstPart(ps[0], more, qs[0], rest);
      PartWise(ps[1..], qs[1..]);
      AllParts(ps, qs);
      if Wild(ps[0], qs[0]) && Wild(more, rest) {
        assert Wild(".", ".") by { assert "."[1..] == []; }
        WildConcat(ps[0], ".", qs[0], ".");
        WildConcat(ps[0] + ".", more, qs[0] + ".", rest);
      }
    }
  }

  /** A part without stars matches only itself; a star alone matches every part. */
  lemma {:induction false} PartMatches(p: string, q: string)
    ensures '*' !in p ==> (Wild(p, q) <==> p == q)
    ensures p == "*" ==> (Wild(p, q) <==> Unbroken(q))
    decreases |p|
  {
    if p == "*" {
      assert p[1..] == [];
      assert q[..|q|] == q && q[|q|..] == [];
      if Unbroken(q) { assert Wild(p[1..], q[|q|..]); }
    }
    if p != [] && '*' !in p {
      assert p[0] in p;
      if q != [] {
        PartMatches(p[1..], q[1..]);
        assert p == [p[0]] + p[1..] && q == [q[0]] + q[1..];
      }
    }
  }

  function Quad(a: nat): seq<string> {
    [Decimal(a / 0x1000000 % 256), Decimal(a / 0x10000 % 256), Decimal(a / 0x100 % 256), Decimal(a % 256)]
  }

  /** The dotted text of a 32-bit address. */
  function AddressText(a: nat): string {
    JoinDots(Quad(a))
  }

  lemma DecimalPlain(n: nat)
    ensures '.' !in Decimal(n) && Unbroken(Decimal(n))
  {
  }

  predicate RulePart(p: string) {
    forall i :: 0 <= i < |p| ==> IsDigit(p[i]) || p[i] == '*'
  }

  /** Octet-wise meaning: a rule of four dot-separated parts of digits and stars lets an address
      through, by its rewritten regular expression, exactly when every octet's decimal text
      matches its own part. */
  lemma OctetWise(parts: seq<string>, a: nat)
    requires |parts| == 4 && forall i :: 0 <= i < 4 ==> RulePart(parts[i])
    ensures var re := Compile(OnePass(JoinDots(parts)));
            re.Some? && (Matches(re.value, AddressText(a)) <==> forall i :: 0 <= i < 4 ==> Wild(parts[i], Quad(a)[i]))
  {
    hide Wild, Matches, Compile, OnePass;
    DecimalPlain(a / 0x1000000 % 256);
    DecimalPlain(a / 0x10000 % 256);
    DecimalPlain(a / 0x100 % 256);
    DecimalPlain(a % 256);
    assert DotFree(Quad(a));
    assert DotFree(parts);
    JoinedPlain(parts);
    RewritingMeans(JoinDots(parts), AddressText(a));
    PartWise(parts, Quad(a));
  }

  lemma {:induction false} JoinedPlain(parts: seq<string>)
    requires parts != [] && forall i :: 0 <= i < |parts| ==> RulePart(parts[i])
    ensures NoMeta(JoinDots(parts))
    decreases |parts|
  {
    assert RulePart(parts[0]);
    if |parts| > 1 { JoinedPlain(parts[1..]); }
  }

  /** A line of the configuration: what kind of request it is about, and the addresses. */
  datatype Rule = Rule(kind: char, pattern: string)

  /** What repeated extraction of a word, a character and a word yields. */
  function Rules(text: string): (rs: seq<Rule>)
    decreases |text|
  {
    var t1 := SkipSpace(text);
    var t2 := SkipSpace(t1[|Word(t1)|..]);
    if t1 == [] || t2 == [] then []
    else
      var t3 := SkipSpace(t2[1..]);
      if t3 == [] then [] else [Rule(t2[0], Word(t3))] + Rules(t3[|Word(t3)|..])
  }

  /** A rule lets through requests of its kind (`c` is connect, anything else is bind) to the
      addresses it matches. */
  predicate Permits(r: Rule, connect: bool, ip: string) {
    connect == (r.kind == 'c') && Wild(r.pattern, ip)
  }

  /** A regular expression library: does the whole text match the pattern?  None when the pattern
      is refused. */
  type Library = (string, string) -> Option<bool>

  /** The library agrees with the meaning of the expressions that arise here. */
  ghost predicate Faithful(regex: Library) {
    forall p, s :: Compile(p).Some? ==> regex(p, s) == Some(Matches(Compile(p).value, s))
  }

  /** One rule: rules of the other kind never match, and the library is asked about the rest. */
  method MatchFirewallRule(regex: Library, operation: char, rule: string, socks4Command: bool, dstIP: string)
    returns (ok: Option<bool>)
    ensures ok == Matched(regex, Rule(operation, rule), socks4Command, dstIP)
  {
    var configCommand := operation == 'c';
    if (socks4Command && configCommand) || (!socks4Command && !configCommand) {
      var pattern := ConvertToRegexPattern(rule);
      return regex(pattern, dstIP);
    }
    return Some(false);
  }

  function Matched(regex: Library, r: Rule, connect: bool, ip: string): Option<bool> {
    if connect == (r.kind == 'c') then regex(OnePass(r.pattern), ip) else Some(false)
  }

  /** For rules without other special characters a rule is matched exactly if it permits. */
  lemma MatchedPermits(regex: Library, r: Rule, connect: bool, ip: string)
    requires Faithful(regex) && NoMeta(r.pattern)
    ensures Matched(regex, r, connect, ip) == Some(Permits(r, connect, ip))
  {
    hide Wild, Matches;
    RewritingMeans(r.pattern, ip);
  }

  /** The access decision on a list of rules, taken in order: a rule that matches gives access, a
      refused pattern leaves the program by an exception, any other rule is passed over. */
  function Decide(regex: Library, rs: seq<Rule>, connect: bool, ip: string): Option<bool> {
    if rs == [] then Some(false)
    else if Matched(regex, rs[0], connect, ip) != Some(false) then Matched(regex, rs[0], connect, ip)
    else Decide(regex, rs[1..], connect, ip)
  }

  /** The access decision on the configuration file; without the file nothing is allowed. */
  method IsDestinationIPAddressAllowed(regex: Library, conf: Option<string>, ip: string, command: bool)
    returns (ok: Option<bool>)
    ensures ok == if conf.None? then Some(false) else Decide(regex, Rules(conf.value), command, ip)
  {
    hide Matched, Rules;
    if conf.None? { return Some(false); }
    var rules := Rules(conf.value);
    var i := 0;
    assert rules[0..] == rules;
    while i < |rules|
      invariant 0 <= i <= |rules| && Decide(regex, rules, command, ip) == Decide(regex, rules[i..], command, ip)
    {
      ok := MatchFirewallRule(regex, rules[i].kind, rules[i].pattern, command, ip);
      Same(rules[i]);
      assert rules[i..][0] == rules[i] && rules[i..][1..] == rules[i + 1..];
      if ok != Some(false) { return; }
      i := i + 1;
    }
    assert rules[i..] == [];
    return Some(false);
  }

  lemma Same(r: Rule)
    ensures r == Rule(r.kind, r.pattern)
  {
  }

  /** Some rule of the list is settled as o. */
  ghost predicate SomeRule(regex: Library, rs: seq<Rule>, connect: bool, ip: string, o: Option<bool>) {
    exists r :: r in rs && Matched(regex, r, connect, ip) == o
  }

  /** The decision is one some rule leads to, and it is no access exactly if every rule is passed
      over. */
  lemma {:induction false} DecideSome(regex: Library, rs: seq<Rule>, connect: bool, ip: string)
    ensures var d := Decide(regex, rs, connect, ip);
            && (d != Some(false) ==> SomeRule(regex, rs, connect, ip, d))
            && (d == Some(false) <==> forall r :: r in rs ==> Matched(regex, r, connect, ip) == Some(false))
  {
    hide Matched;
    if rs != [] {
      DecideSome(regex, rs[1..], connect, ip);
      assert rs == [rs[0]] + rs[1..];
    }
  }

  /** For rules without other special characters: access is given exactly if some rule permits the
      address. */
  lemma SomePermits(regex: Library, rs: seq<Rule>, connect: bool, ip: string)
    requires Faithful(regex) && forall r :: r in rs ==> NoMeta(r.pattern)
    ensures Decide(regex, rs, connect, ip) == Some(exists r :: r in rs && Permits(r, connect, ip))
  {
    hide Permits, Matched, Faithful, NoMeta, Decide;
    forall r | r in rs
      ensures Matched(regex, r, connect, ip) == Some(Permits(r, connect, ip))
    {
      MatchedPermits(regex, r, connect, ip);
    }
    DecideSome(regex, rs, connect, ip);
  }

  /** The list has both a rule that matches and one whose pattern is refused. */
  ghost predicate Mixed(regex: Library, rs: seq<Rule>, connect: bool, ip: string) {
    SomeRule(regex, rs, connect, ip, None) && SomeRule(regex, rs, connect, ip, Some(true))
  }

  /** A rule of the list put in front. */
  lemma PutFirst(rs: seq<Rule>, r: Rule) returns (ps: seq<Rule>)
    requires r in rs
    ensures ps != [] && ps[0] == r && multiset(ps) == multiset(rs)
  {
    var i :| 0 <= i < |rs| && rs[i] == r;
    ps := [r] + (rs[..i] + rs[i + 1..]);
    assert rs == rs[..i] + ([r] + rs[i + 1..]);
  }

  lemma SameRules(rs: seq<Rule>, ps: seq<Rule>)
    requires multiset(ps) == multiset(rs)
    ensures forall r :: r in ps <==> r in rs
  {
    assert forall r :: r in rs <==> r in multiset(rs);
    assert forall r :: r in ps <==> r in multiset(ps);
  }

  /** Two orders of the same rules that are not mixed lead to the same decision. */
  lemma NotMixed(regex: Library, rs: seq<Rule>, ps: seq<Rule>, connect: bool, ip: string)
    requires multiset(ps) == multiset(rs) && !Mixed(regex, rs, connect, ip)
    ensures Decide(regex, ps, connect, ip) == Decide(regex, rs, connect, ip)
  {
    hide Matched, Decide;
    SameRules(rs, ps);
    DecideSome(regex, rs, connect, ip);
    DecideSome(regex, ps, connect, ip);
    ThreeWays(Decide(regex, ps, connect, ip));
    ThreeWays(Decide(regex, rs, connect, ip));
  }

  lemma ThreeWays(o: Option<bool>)
    ensures o == None || o == Some(false) || o == Some(true)
  {
    if o != None { assert o.value == true || o.value == false; }
  }

  /** Mixed rules put in two orders that lead to different decisions. */
  lemma TwoOrders(regex: Library, rs: seq<Rule>, connect: bool, ip: string) returns (ps: seq<Rule>, qs: seq<Rule>)
    requires Mixed(regex, rs, connect, ip)
    ensures multiset(ps) == multiset(rs) && Decide(regex, ps, connect, ip) == None
    ensures multiset(qs) == multiset(rs) && Decide(regex, qs, connect, ip) == Some(true)
  {
    hide Matched;
    var a :| a in rs && Matched(regex, a, connect, ip) == None;
    var b :| b in rs && Matched(regex, b, connect, ip) == Some(true);
    ps := PutFirst(rs, a);
    qs := PutFirst(rs, b);
  }

  /** Every order of the rules leads to the decision of this one. */
  ghost predicate AnyOrder(regex: Library, rs: seq<Rule>, connect: bool, ip: string) {
    forall ps: seq<Rule> :: multiset(ps) == multiset(rs) ==> Decide(regex, ps, connect, ip) == Decide(regex, rs, connect, ip)
  }

  /** The decision is the same for every order of the rules exactly if they are not mixed. */
  lemma OrderExact(regex: Library, rs: seq<Rule>, connect: bool, ip: string)
    ensures AnyOrder(regex, rs, connect, ip) <==> !Mixed(regex, rs, connect, ip)
  {
    hide Decide, Mixed;
    if Mixed(regex, rs, connect, ip) {
      var ps, qs := TwoOrders(regex, rs, connect, ip);
    } else {
      forall ps: seq<Rule> | multiset(ps) == multiset(rs)
        ensures Decide(regex, ps, connect, ip) == Decide(regex, rs, connect, ip)
      {
        NotMixed(regex, rs, ps, connect, ip);
      }
    }
  }

  /** A library that refuses every pattern the rewriting does not lead to. */
  function Strict(p: string, s: string): Option<bool> {
    match Compile(p)
    case None => None
    case Some(re) => Some(Matches(re, s))
  }

  /** Such a library refuses an open parenthesis. */
  lemma StrictRefuses(ip: string)
    ensures Faithful(Strict) && Strict("(", ip) == None
  {
    assert Compile("(") == None;
  }

  const Paren: Rule := Rule('c', "(")
  const All: Rule := Rule('c', "*")

  lemma ParenAll(regex: Library, ip: string)
    requires Faithful(regex) && regex("(", ip) == None && Unbroken(ip)
    ensures Matched(regex, Paren, true, ip) == None && Matched(regex, All, true, ip) == Some(true)
  {
    assert OnePass("(") == "(" by { assert "("[1..] == []; }
    hide Faithful, OnePass;
    PartMatches("*", ip);
    MatchedPermits(regex, All, true, ip);
  }

  /** A refused pattern in front of a rule for all addresses, and behind it. */
  lemma ParenFirst(regex: Library, ip: string)
    requires Faithful(regex) && regex("(", ip) == None && Unbroken(ip)
    ensures Decide(regex, [Paren, All], true, ip) == None
    ensures Decide(regex, [All, Paren], true, ip) == Some(true)
  {
    hide Matched, Faithful;
    ParenAll(regex, ip);
  }

  function RuleLine(action: string, r: Rule): string {
    action + " " + [r.kind] + " " + r.pattern + "\n"
  }

  function Conf(actions: seq<string>, rs: seq<Rule>): string
    requires |actions| == |rs|
  {
    if rs == [] then [] else RuleLine(actions[0], rs[0]) + Conf(actions[1..], rs[1..])
  }

  /** A word after one blank. */
  lemma WordNext(blank: char, w: string, s: string)
    requires IsSpace(blank) && IsWord(w) && (s == [] || IsSpace(s[0]))
    ensures var t := SkipSpace([blank] + (w + s)); t == w + s && t != [] && Word(t) == w && t[|w|..] == s
    ensures SkipSpace(w + s) == w + s
  {
    assert ([blank] + (w + s))[1..] == w + s;
    assert (w + s)[0] == w[0];
    WordOf(w, s);
  }

  lemma LineRead(action: string, r: Rule, rest: string)
    requires IsWord(action) && !IsSpace(r.kind) && IsWord(r.pattern)
    ensures Rules(RuleLine(action, r) + rest) == [r] + Rules("\n" + rest)
  {
    hide SkipSpace, Word;
    var s3 := [' '] + (r.pattern + ("\n" + rest));
    var s1 := [' '] + ([r.kind] + s3);
    assert RuleLine(action, r) + rest == action + s1;
    WordNext(' ', action, s1);
    WordNext(' ', [r.kind], s3);
    WordNext(' ', r.pattern, "\n" + rest);
    assert ([r.kind] + s3)[1..] == s3;
  }

  /** Writing rules down one per line and reading them gives back the rules, whatever the first
      word of each line says. */
  lemma {:induction false} RulesOfConf(actions: seq<string>, rs: seq<Rule>)
    requires |actions| == |rs|
    requires forall i :: 0 <= i < |rs| ==> IsWord(actions[i]) && !IsSpace(rs[i].kind) && IsWord(rs[i].pattern)
    ensures Rules(Conf(actions, rs)) == rs
    decreases |rs|
  {
    hide RuleLine, IsWord, IsSpace;
    if rs == [] {
      RulesNone();
    } else {
      hide Rules;
      RulesOfConf(actions[1..], rs[1..]);
      LineRead(actions[0], rs[0], Conf(actions[1..], rs[1..]));
      SpaceFirst(Conf(actions[1..], rs[1..]));
    }
  }

  lemma RulesNone()
    ensures Rules([]) == []
  {
  }

  lemma SpaceFirst(s: string)
    ensures Rules("\n" + s) == Rules(s)
  {
    assert ("\n" + s)[1..] == s;
    assert SkipSpace("\n" + s) == SkipSpace(s);
  }

  /** For rules without other special characters neither the order of the rules nor what the first
      words of their lines say matters to the decision. */
  lemma OrderFree(regex: Library, actions: seq<string>, rs: seq<Rule>, actions': seq<string>, rs': seq<Rule>, connect: bool, ip: string)
    requires Faithful(regex) && |actions| == |rs| && |actions'| == |rs'| && multiset(rs) == multiset(rs')
    requires forall i :: 0 <= i < |rs| ==> IsWord(actions[i]) && !IsSpace(rs[i].kind) && IsWord(rs[i].pattern)
    requires forall i :: 0 <= i < |rs'| ==> IsWord(actions'[i]) && !IsSpace(rs'[i].kind) && IsWord(rs'[i].pattern)
    requires forall r :: r in rs ==> NoMeta(r.pattern)
    ensures Decide(regex, Rules(Conf(actions, rs)), connect, ip) == Decide(regex, Rules(Conf(actions', rs')), connect, ip)
  {
    hide Permits, IsWord, IsSpace, Faithful, NoMeta, Decide;
    RulesOfConf(actions, rs);
    RulesOfConf(actions', rs');
    SameRules(rs, rs');
    SomePermits(regex, rs, connect, ip);
    SomePermits(regex, rs', connect, ip);
  }
}
