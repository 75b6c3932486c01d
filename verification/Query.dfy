/**
 The two parsers of the console's query string: one splits at every `&`, the other searches for a
 regular expression.  They agree on what a form sends.
 */
module Query {
  import opened Text

  datatype ServerInfo = ServerInfo(host: string, port: string, fileName: string)

  /** The longest prefix without `&`. */
  function Field(s: string): (r: string)
    ensures r <= s && '&' !in r
    ensures |r| < |s| ==> s[|r|] == '&'
  {
    if s != [] && s[0] != '&' then [s[0]] + Field(s[1..]) else []
  }

  function SkipAmps(s: string): (r: string)
    ensures |r| <= |s|
  {
    if s != [] && s[0] == '&' then SkipAmps(s[1..]) else s
  }

  /** Splitting at `&`, runs of which count as one. */
  function Tokens(s: string): (ts: seq<string>)
    ensures ts != []
    decreases |s|
  {
    var w := Field(s);
    if |w| == |s| then [w] else [w] + Tokens(SkipAmps(s[|w| + 1..]))
  }

  /** substr(find("=") + 1): what follows the first `=`, or everything if there is none. */
  function AfterEquals(t: string): (r: string)
    ensures '=' !in t ==> r == t
  {
    if '=' !in t then t else if t[0] == '=' then t[1..] else AfterEquals(t[1..])
  }

  function Server(ts: seq<string>, i: nat): ServerInfo
    requires i + 3 <= |ts|
  {
    ServerInfo(AfterEquals(ts[i]), AfterEquals(ts[i + 1]), AfterEquals(ts[i + 2]))
  }

  /** Servers from tokens in threes; None where the code would read past the last token. */
  function Servers(ts: seq<string>): Option<seq<ServerInfo>> {
    if ts == [] then Some([])
    else if |ts| < 3 then None
    else
      match Servers(ts[3..])
      case None => None
      case Some(rest) => Some([Server(ts, 0)] + rest)
  }

  lemma {:induction false} ServersConcat(a: seq<string>, b: seq<string>)
    requires Servers(a).Some? && Servers(b).Some?
    ensures Servers(a + b) == Some(Servers(a).value + Servers(b).value)
    decreases |a|
  {
    hide AfterEquals, Server;
    if a == [] {
      assert a + b == b && Servers(a).value + Servers(b).value == Servers(b).value;
    } else {
      assert (a + b)[3..] == a[3..] + b;
      ServersConcat(a[3..], b);
      SameServer(a, b);
      var x, y, z := [Server(a, 0)], Servers(a[3..]).value, Servers(b).value;
      assert Servers(a).value == x + y && Servers(a + b) == Some(x + (y + z));
      assert (x + y) + z == x + (y + z);
    }
  }

  lemma SameServer(a: seq<string>, b: seq<string>)
    requires |a| >= 3
    ensures Server(a + b, 0) == Server(a, 0)
  {
    assert (a + b)[0] == a[0] && (a + b)[1] == a[1] && (a + b)[2] == a[2];
  }

  lemma ServersMore(ts: seq<string>, i: nat, ret: seq<ServerInfo>)
    requires i + 3 <= |ts| && Servers(ts[..i]) == Some(ret)
    ensures Servers(ts[..i + 3]) == Some(ret + [Server(ts, i)])
  {
    var t := ts[i..i + 3];
    assert t[3..] == [];
    assert Servers(t) == Some([Server(t, 0)] + []);
    assert ts[..i + 3] == ts[..i] + t;
    assert Server(t, 0) == Server(ts, i);
    assert Servers(t).value == [Server(ts, i)];
    ServersConcat(ts[..i], t);
  }

  lemma {:induction false} ServersShort(ts: seq<string>)
    ensures Servers(ts).Some? <==> |ts| % 3 == 0
    decreases |ts|
  {
    if |ts| >= 3 { ServersShort(ts[3..]); }
  }

  /** The splitting parser; None where it would read past the last token. */
  method ParseQueryString(query: string) returns (ret: Option<seq<ServerInfo>>)
    ensures ret == Servers(Tokens(query))
  {
    hide Tokens, AfterEquals;
    var tmp := Tokens(query);
    ServersShort(tmp);
    var out: seq<ServerInfo> := [];
    var i := 0;
    while i < |tmp|
      invariant 0 <= i && i % 3 == 0 && (i <= |tmp| && Servers(tmp[..i]) == Some(out))
    {
      if i + 2 >= |tmp| { return None; }
      ServersMore(tmp, i, out);
      out := out + [ServerInfo(AfterEquals(tmp[i]), AfterEquals(tmp[i + 1]), AfterEquals(tmp[i + 2]))];
      i := i + 3;
    }
    assert tmp[..i] == tmp;
    return Some(out);
  }

  /** A letter, a digit, `=` and a field, and what follows. */
  datatype Part = Part(d: char, field: string, rest: string)

  function PartHere(s: string, letter: char): Option<Part> {
    if |s| >= 3 && s[0] == letter && IsDigit(s[1]) && s[2] == '=' then
      var f := Field(s[3..]);
      Some(Part(s[1], f, s[3 + |f|..]))
    else None
  }

  /** The part after a `&`, with the same digit. */
  function PartNext(p: Part, letter: char): Option<Part> {
    if p.rest != [] && p.rest[0] == '&' then
      var q := PartHere(p.rest[1..], letter);
      if q.Some? && q.value.d == p.d then q else None
    else None
  }

  datatype Found = Found(info: ServerInfo, rest: string)

  /** The match of h(\\d)=([^&]*)&p\\1=([^&]*)&f\\1=([^&]*) at the start of s. */
  function MatchHere(s: string): (r: Option<Found>)
    ensures r.Some? ==> |r.value.rest| < |s|
  {
    var h := PartHere(s, 'h');
    if h.None? then None
    else
      var p := PartNext(h.value, 'p');
      if p.None? then None
      else
        var f := PartNext(p.value, 'f');
        if f.None? then None
        else Some(Found(ServerInfo(h.value.field, p.value.field, f.value.field), f.value.rest))
  }

  function SlotText(d: char, s: ServerInfo): string {
    "h" + [d] + "=" + s.host + "&p" + [d] + "=" + s.port + "&f" + [d] + "=" + s.fileName
  }

  /** Fields as the expression captures them. */
  predicate AmpFree(s: ServerInfo) {
    '&' !in s.host && '&' !in s.port && '&' !in s.fileName
  }

  lemma {:induction false} FieldIs(f: string, rest: string)
    requires '&' !in f && (rest == [] || rest[0] == '&')
    ensures Field(f + rest) == f
    decreases |f|
  {
    if f == [] {
      assert f + rest == rest;
    } else {
      assert f[0] in f;
      assert (f + rest)[1..] == f[1..] + rest;
      FieldIs(f[1..], rest);
    }
  }

  lemma PartIs(letter: char, d: char, f: string, rest: string)
    requires IsDigit(d) && '&' !in f && (rest == [] || rest[0] == '&')
    ensures PartHere([letter, d, '='] + (f + rest), letter) == Some(Part(d, f, rest))
  {
    FieldIs(f, rest);
    var s := [letter, d, '='] + (f + rest);
    assert s[3..] == f + rest && s[3 + |f|..] == rest;
  }

  /** A printed slot is matched whole, whatever follows behind a `&`. */
  lemma SlotMatches(d: char, s: ServerInfo, rest: string)
    requires IsDigit(d) && AmpFree(s) && (rest == [] || rest[0] == '&')
    ensures MatchHere(SlotText(d, s) + rest) == Some(Found(s, rest))
  {
    hide PartHere;
    var r3 := ['f', d, '='] + (s.fileName + rest);
    var r2 := ['p', d, '='] + (s.port + (['&'] + r3));
    var r1 := ['h', d, '='] + (s.host + (['&'] + r2));
    SlotSplits(d, s, rest);
    PartIs('h', d, s.host, ['&'] + r2);
    PartIs('p', d, s.port, ['&'] + r3);
    PartIs('f', d, s.fileName, rest);
    assert (['&'] + r2)[1..] == r2 && (['&'] + r3)[1..] == r3;
  }

  lemma SlotSplits(d: char, s: ServerInfo, rest: string)
    ensures SlotText(d, s) + rest
         == ['h', d, '='] + (s.host + (['&'] + (['p', d, '='] + (s.port + (['&'] + (['f', d, '='] + (s.fileName + rest)))))))
  {
    var r3 := ['f', d, '='] + (s.fileName + rest);
    assert "&f" + [d] + "=" + s.fileName + rest == ['&'] + r3;
    var r2 := ['p', d, '='] + (s.port + (['&'] + r3));
    assert "&p" + [d] + "=" + s.port + (['&'] + r3) == ['&'] + r2;
    var a := "h" + [d] + "=" + s.host;
    var b := "&p" + [d] + "=" + s.port;
    var c := "&f" + [d] + "=" + s.fileName;
    assert SlotText(d, s) == a + b + c;
    assert SlotText(d, s) + rest == a + (b + (c + rest));
    assert b + (c + rest) == ['&'] + r2;
    assert a + (['&'] + r2) == ['h', d, '='] + (s.host + (['&'] + r2));
  }

  lemma PartTakes(s: string, letter: char)
    ensures PartHere(s, letter).Some? ==>
              var p := PartHere(s, letter).value;
              IsDigit(p.d) && '&' !in p.field && s == [letter, p.d, '='] + (p.field + p.rest) && (p.rest == [] || p.rest[0] == '&')
  {
    if PartHere(s, letter).Some? {
      var f := Field(s[3..]);
      assert s[3..] == f + s[3..][|f|..] && s[3..][|f|..] == s[3 + |f|..];
      assert s == s[..3] + s[3..];
    }
  }

  /** The match found is a text of the expression's form with the longest last field, and there is
      one whenever the text starts with any text of that form. */
  lemma MatchExact(s: string)
    ensures MatchHere(s).Some? ==>
              var m := MatchHere(s).value;
              (exists d :: IsDigit(d) && AmpFree(m.info) && s == SlotText(d, m.info) + m.rest) && (m.rest == [] || m.rest[0] == '&')
    ensures forall d, i, rest :: IsDigit(d) && AmpFree(i) && s == SlotText(d, i) + rest ==>
              MatchHere(s) == Some(Found(i.(fileName := i.fileName + Field(rest)), rest[|Field(rest)|..]))
  {
    if MatchHere(s).Some? { MatchTakes(s); }
    forall d, i, rest | IsDigit(d) && AmpFree(i) && s == SlotText(d, i) + rest
      ensures MatchHere(s) == Some(Found(i.(fileName := i.fileName + Field(rest)), rest[|Field(rest)|..]))
    {
      LongerMatch(d, i, rest);
    }
  }

  lemma MatchTakes(s: string)
    requires MatchHere(s).Some?
    ensures var m := MatchHere(s).value;
            (exists d :: IsDigit(d) && AmpFree(m.info) && s == SlotText(d, m.info) + m.rest) && (m.rest == [] || m.rest[0] == '&')
  {
    hide PartHere;
    var h := PartHere(s, 'h').value;
    var p := PartNext(h, 'p').value;
    var f := PartNext(p, 'f').value;
    PartTakes(s, 'h');
    PartTakes(h.rest[1..], 'p');
    PartTakes(p.rest[1..], 'f');
    assert h.rest == ['&'] + h.rest[1..] && p.rest == ['&'] + p.rest[1..];
    SlotSplits(h.d, MatchHere(s).value.info, f.rest);
  }

  lemma LongerMatch(d: char, i: ServerInfo, rest: string)
    requires IsDigit(d) && AmpFree(i)
    ensures MatchHere(SlotText(d, i) + rest) == Some(Found(i.(fileName := i.fileName + Field(rest)), rest[|Field(rest)|..]))
  {
    hide MatchHere;
    var w := Field(rest);
    var j := i.(fileName := i.fileName + w);
    assert rest == w + rest[|w|..];
    assert SlotText(d, j) == SlotText(d, i) + w;
    assert SlotText(d, i) + rest == SlotText(d, j) + rest[|w|..];
    SlotMatches(d, j, rest[|w|..]);
  }

  predicate Filled(s: ServerInfo) {
    s.host != "" || s.port != "" || s.fileName != ""
  }

  /** What successive leftmost searches find, empty triples dropped. */
  function Results(s: string): seq<ServerInfo>
    decreases |s|
  {
    match MatchHere(s)
    case Some(m) => (if Filled(m.info) then [m.info] else []) + Results(m.rest)
    case None => if s == [] then [] else Results(s[1..])
  }

  lemma ResultsStep(s: string)
    ensures MatchHere(s).Some? ==>
              var m := MatchHere(s).value; Results(s) == (if Filled(m.info) then [m.info] else []) + Results(m.rest)
    ensures MatchHere(s).None? ==> Results(s) == if s == [] then [] else Results(s[1..])
  {
  }

  /** What follows a match is the end of the text. */
  lemma MatchSuffix(s: string, i: nat)
    requires i <= |s| && MatchHere(s[i..]).Some?
    ensures var rest := MatchHere(s[i..]).value.rest; |rest| < |s| - i && rest == s[|s| - |rest|..]
  {
    hide MatchHere, SlotText, AmpFree;
    MatchTakes(s[i..]);
    var m := MatchHere(s[i..]).value;
    var d :| IsDigit(d) && AmpFree(m.info) && s[i..] == SlotText(d, m.info) + m.rest;
    assert s == s[..i] + (SlotText(d, m.info) + m.rest);
    assert s == (s[..i] + SlotText(d, m.info)) + m.rest;
  }

  lemma NoneAtEnd()
    ensures Results([]) == []
  {
  }

  /** regex_search from pos on: the first place with a match. */
  method RegexSearch(s: string, pos: nat) returns (found: Option<Found>, at: nat)
    requires pos <= |s|
    ensures pos <= at <= |s| && (found.Some? ==> MatchHere(s[at..]) == found) && (found.None? ==> at == |s|)
    ensures forall i :: pos <= i < at ==> MatchHere(s[i..]).None?
    ensures found.None? ==> Results(s[pos..]) == []
    ensures found.Some? ==> |found.value.rest| < |s| - pos
    ensures found.Some? ==> Results(s[pos..]) == (if Filled(found.value.info) then [found.value.info] else []) + Results(found.value.rest)
    ensures found.Some? ==> found.value.rest == s[|s| - |found.value.rest|..]
  {
    hide Filled, MatchHere, Results;
    var i := pos;
    while i < |s|
      invariant pos <= i <= |s| && Results(s[pos..]) == Results(s[i..])
      invariant forall j :: pos <= j < i ==> MatchHere(s[j..]).None?
    {
      var m := MatchHere(s[i..]);
      ResultsStep(s[i..]);
      if m.Some? {
        MatchSuffix(s, i);
        return m, i;
      }
      assert s[i..][1..] == s[i + 1..];
      i := i + 1;
    }
    assert s[i..] == [];
    NoneAtEnd();
    return None, i;
  }

  /** The searching parser. */
  method ParseHTTPQueryString(query: string) returns (result: seq<ServerInfo>)
    ensures result == Results(query)
  {
    hide MatchHere, Results;
    result := [];
    var pos: nat := 0;
    assert query[0..] == query;
    while true
      invariant pos <= |query| && result + Results(query[pos..]) == Results(query)
      decreases |query| - pos
    {
      var m, at := RegexSearch(query, pos);
      if m.None? { break; }
      if |m.value.info.host| != 0 || |m.value.info.port| != 0 || |m.value.info.fileName| != 0 {
        result := result + [m.value.info];
      }
      pos := |query| - |m.value.rest|;
    }
  }

  /** What a form with these slots sends: slot i under digit ds[i]. */
  function FormText(ds: seq<char>, slots: seq<ServerInfo>): string
    requires |ds| == |slots|
  {
    if slots == [] then ""
    else SlotText(ds[0], slots[0]) + if |slots| == 1 then "" else "&" + FormText(ds[1..], slots[1..])
  }

  function FilledOnly(slots: seq<ServerInfo>): seq<ServerInfo> {
    if slots == [] then []
    else (if slots[0] == ServerInfo("", "", "") then [] else [slots[0]]) + FilledOnly(slots[1..])
  }

  lemma FilledIs(s: ServerInfo)
    ensures Filled(s) <==> s != ServerInfo("", "", "")
  {
  }

  lemma {:induction false} Searched(ds: seq<char>, slots: seq<ServerInfo>)
    requires |ds| == |slots| && forall i :: 0 <= i < |slots| ==> IsDigit(ds[i]) && AmpFree(slots[i])
    ensures Results(FormText(ds, slots)) == FilledOnly(slots)
    decreases |slots|
  {
    hide SlotText, AmpFree, Filled, IsDigit;
    if slots != [] {
      FilledIs(slots[0]);
      var rest := if |slots| == 1 then "" else "&" + FormText(ds[1..], slots[1..]);
      SlotMatches(ds[0], slots[0], rest);
      Searched(ds[1..], slots[1..]);
      if |slots| > 1 {
        assert rest[1..] == FormText(ds[1..], slots[1..]);
        assert PartHere(rest, 'h').None?;
      }
    }
  }

  lemma TokenFirst(w: string, s: string)
    requires '&' !in w
    ensures Tokens(w + ("&" + s)) == [w] + Tokens(SkipAmps(s))
  {
    hide Field, SkipAmps;
    FieldIs(w, "&" + s);
    assert (w + ("&" + s))[|w| + 1..] == s;
  }

  lemma TokenLast(w: string)
    requires '&' !in w
    ensures Tokens(w) == [w]
  {
    FieldIs(w, "");
    assert w + "" == w;
  }

  lemma EqualsSkips(letter: char, d: char, f: string)
    requires letter != '=' && d != '='
    ensures AfterEquals([letter, d, '='] + f) == f
  {
    var t := [letter, d, '='] + f;
    assert t[2] == '=' && t[1..][1] == '=' && t[2..][0] == '=';
    assert t[1..][1..] == t[2..] && t[2..][1..] == f;
    assert AfterEquals(t) == AfterEquals(t[1..]) == AfterEquals(t[2..]);
  }

  /** The tokens of a slot. */
  function SlotTokens(d: char, s: ServerInfo): seq<string> {
    [['h', d, '='] + s.host, ['p', d, '='] + s.port, ['f', d, '='] + s.fileName]
  }

  lemma SlotIsTokens(d: char, s: ServerInfo, more: string)
    requires IsDigit(d) && AmpFree(s) && (more != [] ==> more[0] != '&')
    ensures Tokens(SlotText(d, s)) == SlotTokens(d, s)
    ensures more != [] ==> Tokens(SlotText(d, s) + ("&" + more)) == SlotTokens(d, s) + Tokens(more)
  {
    hide Tokens;
    var t := SlotTokens(d, s);
    assert forall i :: 0 <= i < 3 ==> '&' !in t[i];
    TokenLast(t[2]);
    assert SkipAmps(t[2]) == t[2];
    TokenFirst(t[1], t[2]);
    assert SkipAmps(t[1] + ("&" + t[2])) == t[1] + ("&" + t[2]);
    TokenFirst(t[0], t[1] + ("&" + t[2]));
    assert SlotText(d, s) == t[0] + ("&" + (t[1] + ("&" + t[2])));
    if more != [] {
      var last := t[2] + ("&" + more);
      assert SkipAmps(more) == more && SkipAmps(last) == last;
      TokenFirst(t[2], more);
      TokenFirst(t[1], last);
      assert SkipAmps(t[1] + ("&" + last)) == t[1] + ("&" + last);
      TokenFirst(t[0], t[1] + ("&" + last));
      assert SlotText(d, s) + ("&" + more) == t[0] + ("&" + (t[1] + ("&" + last)));
    }
  }

  lemma {:induction false} Split(ds: seq<char>, slots: seq<ServerInfo>)
    requires |ds| == |slots| != 0 && forall i :: 0 <= i < |slots| ==> IsDigit(ds[i]) && AmpFree(slots[i])
    ensures Servers(Tokens(FormText(ds, slots))) == Some(slots)
    decreases |slots|
  {
    hide Tokens, AmpFree, AfterEquals, SlotText;
    var t := SlotTokens(ds[0], slots[0]);
    EqualsSkips('h', ds[0], slots[0].host);
    EqualsSkips('p', ds[0], slots[0].port);
    EqualsSkips('f', ds[0], slots[0].fileName);
    if |slots| == 1 {
      SlotIsTokens(ds[0], slots[0], []);
      assert t[3..] == [];
      assert SlotText(ds[0], slots[0]) + "" == SlotText(ds[0], slots[0]);
      assert slots == [slots[0]] + [];
      assert Servers(t[3..]) == Some([]);
      assert Servers(t) == Some([ServerInfo(AfterEquals(t[0]), AfterEquals(t[1]), AfterEquals(t[2]))] + []);
    } else {
      var more := FormText(ds[1..], slots[1..]);
      FormStarts(ds[1..], slots[1..]);
      SlotIsTokens(ds[0], slots[0], more);
      Split(ds[1..], slots[1..]);
      assert (t + Tokens(more))[3..] == Tokens(more);
      assert slots == [slots[0]] + slots[1..];
    }
  }

  lemma FormStarts(ds: seq<char>, slots: seq<ServerInfo>)
    requires |ds| == |slots| != 0
    ensures FormText(ds, slots) != [] && FormText(ds, slots)[0] == 'h'
  {
  }

  /** The two parsers on what a form sends: the first gives back all slots in order, the second
      exactly those with some field filled in. */
  lemma ParsersAgree(ds: seq<char>, slots: seq<ServerInfo>)
    requires |ds| == |slots| != 0 && forall i :: 0 <= i < |slots| ==> IsDigit(ds[i]) && AmpFree(slots[i])
    ensures var q := FormText(ds, slots);
            Servers(Tokens(q)) == Some(slots) && Results(q) == FilledOnly(slots)
  {
    Split(ds, slots);
    Searched(ds, slots);
  }

  /** One slot and whatever follows it, written out: the fields come back in order; an empty slot is
      one of the first parser's servers and none of the second's. */
  lemma OneSlot(d: char, host: string, port: string, file: string, more: string)
    requires '0' <= d <= '9' && '&' !in host && '&' !in port && '&' !in file
    requires more != "" && more[0] != '&'
    ensures var q := "h" + [d] + "=" + host + "&p" + [d] + "=" + port + "&f" + [d] + "=" + file;
            var found := if host == "" && port == "" && file == "" then [] else [ServerInfo(host, port, file)];
            && Results("") == [] && Results(q) == found && Results(q + ("&" + more)) == found + Results(more)
            && Servers(Tokens(q)) == Some([ServerInfo(host, port, file)])
            && (Servers(Tokens(more)).Some? ==>
                  Servers(Tokens(q + ("&" + more))) == Some([ServerInfo(host, port, file)] + Servers(Tokens(more)).value))
  {
    var s := ServerInfo(host, port, file);
    SlotSearched(d, s, more);
    SlotSplit(d, s, more);
  }

  lemma SlotSearched(d: char, s: ServerInfo, more: string)
    requires IsDigit(d) && AmpFree(s)
    ensures Results("") == [] && Results(SlotText(d, s)) == if Filled(s) then [s] else []
    ensures Results(SlotText(d, s) + ("&" + more)) == (if Filled(s) then [s] else []) + Results(more)
  {
    hide SlotText, AmpFree, Filled, IsDigit;
    SlotMatches(d, s, "");
    assert SlotText(d, s) + "" == SlotText(d, s);
    SlotMatches(d, s, "&" + more);
    assert ("&" + more)[1..] == more;
    assert PartHere("&" + more, 'h').None?;
  }

  lemma SlotSplit(d: char, s: ServerInfo, more: string)
    requires IsDigit(d) && AmpFree(s) && more != "" && more[0] != '&'
    ensures Servers(Tokens(SlotText(d, s))) == Some([s])
    ensures Servers(Tokens(more)).Some? ==>
              Servers(Tokens(SlotText(d, s) + ("&" + more))) == Some([s] + Servers(Tokens(more)).value)
  {
    hide Tokens, AmpFree, AfterEquals, SlotText;
    var t := SlotTokens(d, s);
    SlotIsTokens(d, s, more);
    EqualsSkips('h', d, s.host);
    EqualsSkips('p', d, s.port);
    EqualsSkips('f', d, s.fileName);
    assert t[3..] == [] && Servers(t[3..]) == Some([]);
    assert Server(t, 0) == s && [s] + [] == [s];
    assert Servers(t) == Some([s] + []);
    if Servers(Tokens(more)).Some? { ServersConcat(t, Tokens(more)); }
  }

  /** What follows the first `=`, or everything. */
  lemma {:induction false} EqualsMeans(key: string, value: string)
    requires '=' !in key
    ensures AfterEquals(key + ("=" + value)) == value && AfterEquals(key) == key
    decreases |key|
  {
    var t := key + ("=" + value);
    if key == "" {
      assert t[0] == '=' && t[1..] == value;
    } else {
      assert key[0] in key && t[|key|] == '=';
      assert t[1..] == key[1..] + ("=" + value);
      EqualsMeans(key[1..], value);
    }
  }

  /** An input on which the splitting parser would read past its last token. */
  lemma OneToken()
    ensures Servers(Tokens("h0=a")) == None
  {
    var t := "h0=a";
    assert '&' !in t;
    TokenLast(t);
    ServersShort([t]);
  }
}
