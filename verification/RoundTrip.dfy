/** Parsing a printed line gives back the pieces it was printed from. */
module RoundTrip {
  import opened Shell
  import opened PieceRuns
  import opened Text
  import opened Parser

  /** What the words of one command do to the variables of the loop. */
  function Feed(b: Build, c: Command): Build {
    match c
    case Exe(argv) => b.(argv := b.argv + argv)
    case Numbered(n, err) => b.(ret := b.ret + [b.line + [Exe(b.argv), c]], line := [], argv := [])
    case _ => Add(b, c)
  }

  function FeedAll(b: Build, cmds: seq<Command>): Build {
    if cmds == [] then b else Feed(FeedAll(b, cmds[..|cmds| - 1]), cmds[|cmds| - 1])
  }

  /** The words w are in ws from position i on. */
  predicate From(ws: seq<string>, i: nat, w: seq<string>) {
    i + |w| <= |ws| && ws[i..i + |w|] == w
  }

  lemma FromParts(ws: seq<string>, i: nat, a: seq<string>, b: seq<string>)
    requires From(ws, i, a + b)
    ensures From(ws, i, a) && From(ws, i + |a|, b)
  {
    assert ws[i..i + |a|] == ws[i..i + |a + b|][..|a|];
    assert ws[i + |a|..i + |a| + |b|] == ws[i..i + |a + b|][|a|..];
  }

  lemma ArgTurn(b: Build, ws: seq<string>, i: nat)
    requires i < |ws| && Plain(ws[i])
    ensures Turn(b, ws, i) == b.(argv := b.argv + [ws[i]]) && NextAt(ws, i) == i + 1
  {
    hide Atoi;
  }

  lemma {:induction false} FeedArgs(b: Build, ws: seq<string>, i: nat, argv: seq<string>)
    requires From(ws, i, argv) && forall j :: 0 <= j < |argv| ==> Plain(argv[j])
    ensures Turns(b, ws, i) == Turns(b.(argv := b.argv + argv), ws, i + |argv|)
    decreases |argv|
  {
    hide Turn, NextAt, Plain;
    if argv == [] {
      assert b.argv + argv == b.argv;
    } else {
      assert argv == [argv[0]] + argv[1..];
      FromParts(ws, i, [argv[0]], argv[1..]);
      assert ws[i] == ws[i..i + |argv|][0];
      var b1 := b.(argv := b.argv + [argv[0]]);
      ArgTurn(b, ws, i);
      FeedArgs(b1, ws, i + 1, argv[1..]);
      assert b1.argv + argv[1..] == b.argv + argv;
    }
  }

  lemma FeedConnector(b: Build, ws: seq<string>, i: nat, c: Command)
    requires Writable(c) && !c.Exe? && From(ws, i, ConnectorWords(c))
    ensures Turns(b, ws, i) == Turns(Feed(b, c), ws, i + |ConnectorWords(c)|)
  {
    hide Atoi, Itoa;
    var w := ConnectorWords(c);
    assert ws[i] == ws[i..i + |w|][0];
    match c
    case PipeTo =>
    case FileTo(name) => assert ws[i + 1] == ws[i..i + |w|][1];
    case Numbered(n, err) =>
      ItoaWord(n);
      AtoiItoa(n);
      assert w[0][1..] == Itoa(n);
      assert w[0] != "|" && IsNumbered(w[0]);
      assert b.ret + [b.line + [Exe(b.argv), c]] == Add(b, c).(ret := b.ret + [Add(b, c).line]).ret;
  }

  lemma FeedCommand(b: Build, ws: seq<string>, i: nat, c: Command)
    requires Writable(c) && From(ws, i, CommandWords(c))
    ensures Turns(b, ws, i) == Turns(Feed(b, c), ws, i + |CommandWords(c)|)
  {
    if c.Exe? { FeedArgs(b, ws, i, c.argv); } else { FeedConnector(b, ws, i, c); }
  }

  lemma {:induction false} FeedPiece(b: Build, ws: seq<string>, i: nat, cmds: seq<Command>)
    requires From(ws, i, PieceWords(cmds)) && forall j :: 0 <= j < |cmds| ==> Writable(cmds[j])
    ensures Turns(b, ws, i) == Turns(FeedAll(b, cmds), ws, i + |PieceWords(cmds)|)
    decreases |cmds|
  {
    hide Turns, Feed, CommandWords, Writable;
    if cmds != [] {
      var n := |cmds| - 1;
      FromParts(ws, i, PieceWords(cmds[..n]), CommandWords(cmds[n]));
      FeedPiece(b, ws, i, cmds[..n]);
      FeedCommand(FeedAll(b, cmds[..n]), ws, i + |PieceWords(cmds[..n])|, cmds[n]);
    }
  }

  function FeedLine(b: Build, ps: seq<seq<Command>>): Build {
    if ps == [] then b else FeedAll(FeedLine(b, ps[..|ps| - 1]), ps[|ps| - 1])
  }

  lemma {:induction false} FeedPieces(b: Build, ws: seq<string>, i: nat, ps: seq<seq<Command>>)
    requires From(ws, i, LineWords(ps))
    requires forall k, j :: 0 <= k < |ps| && 0 <= j < |ps[k]| ==> Writable(ps[k][j])
    ensures Turns(b, ws, i) == Turns(FeedLine(b, ps), ws, i + |LineWords(ps)|)
    decreases |ps|
  {
    hide Turns, Feed, FeedAll, CommandWords, Writable;
    if ps != [] {
      var n := |ps| - 1;
      FromParts(ws, i, LineWords(ps[..n]), PieceWords(ps[n]));
      FeedPieces(b, ws, i, ps[..n]);
      FeedPiece(FeedLine(b, ps[..n]), ws, i + |LineWords(ps[..n])|, ps[n]);
    }
  }

  /** The variables after the first j commands of a piece. */
  function Fed(b: Build, cmds: seq<Command>, j: nat): Build
    requires j <= |cmds|
  {
    if j % 2 == 0 then b.(line := cmds[..j])
    else b.(line := cmds[..j - 1], argv := if cmds[j - 1].Exe? then cmds[j - 1].argv else [])
  }

  lemma FedNext(b: Build, cmds: seq<Command>, j: nat)
    requires b.line == [] && b.argv == [] && j < |cmds|
    requires cmds[j].Exe? <==> j % 2 == 0
    requires 0 < j ==> (cmds[j - 1].Exe? <==> (j - 1) % 2 == 0)
    requires !cmds[j].Numbered?
    ensures Feed(Fed(b, cmds, j), cmds[j]) == Fed(b, cmds, j + 1)
  {
    if j % 2 == 0 {
      assert b.argv + cmds[j].argv == cmds[j].argv;
    } else {
      assert cmds[..j + 1] == cmds[..j - 1] + [Exe(cmds[j - 1].argv), cmds[j]];
    }
  }

  lemma {:induction false} FedSoFar(b: Build, cmds: seq<Command>, j: nat)
    requires b.line == [] && b.argv == [] && Alternating(cmds) && j <= |cmds|
    requires j == |cmds| ==> !EndsNumbered(cmds)
    ensures FeedAll(b, cmds[..j]) == Fed(b, cmds, j)
  {
    hide Feed, Fed;
    if j == 0 {
      FedNone(b, cmds);
    } else {
      FedSoFar(b, cmds, j - 1);
      assert cmds[..j][..j - 1] == cmds[..j - 1];
      assert cmds[j - 1].Exe? <==> (j - 1) % 2 == 0;
      FedNext(b, cmds, j - 1);
    }
  }

  lemma FedNone(b: Build, cmds: seq<Command>)
    requires b.line == []
    ensures Fed(b, cmds, 0) == b
  {
  }

  lemma FedNumbered(b: Build, cmds: seq<Command>)
    requires b.line == [] && b.argv == [] && Alternating(cmds) && NoUser(cmds) && EndsNumbered(cmds)
    ensures FeedAll(b, cmds) == b.(ret := b.ret + [cmds])
  {
    var n := |cmds| - 1;
    FedSoFar(b, cmds, n);
    assert cmds[n].Exe? <==> n % 2 == 0;
    assert cmds[n - 1].Exe?;
    assert cmds == cmds[..n - 1] + [Exe(cmds[n - 1].argv), cmds[n]];
  }

  lemma {:induction false} FedNumberedLine(ps: seq<seq<Command>>)
    requires forall k :: 0 <= k < |ps| ==> Alternating(ps[k]) && NoUser(ps[k]) && EndsNumbered(ps[k])
    ensures FeedLine(Blank, ps) == Blank.(ret := ps)
    decreases |ps|
  {
    if ps != [] {
      var n := |ps| - 1;
      FedNumberedLine(ps[..n]);
      FedNumbered(FeedLine(Blank, ps[..n]), ps[n]);
      assert ps == ps[..n] + [ps[n]];
    }
  }

  lemma LastPlain(b: Build, p: seq<Command>)
    requires b.line == [] && b.argv == [] && Alternating(p) && !EndsNumbered(p)
    requires p[|p| - 1].Exe? ==> p[|p| - 1].argv != []
    ensures Queue(FeedAll(b, p)) == b.ret + [p] && FeedAll(b, p).quits == b.quits
  {
    hide FeedAll, Alternating, EndsNumbered, Queue, Fed;
    FedSoFar(b, p, |p|);
    assert p[..|p|] == p;
    FedEnd(b, p);
  }

  lemma FedEnd(b: Build, p: seq<Command>)
    requires b.line == [] && b.argv == [] && Alternating(p)
    requires p[|p| - 1].Exe? ==> p[|p| - 1].argv != []
    ensures Queue(Fed(b, p, |p|)) == b.ret + [p] && Fed(b, p, |p|).quits == b.quits
  {
    var n := |p| - 1;
    assert p[n].Exe? <==> n % 2 == 0;
    assert p[..|p|] == p;
    if p[n].Exe? { assert p == p[..n] + [Exe(p[n].argv)]; }
  }

  lemma LastPiece(b: Build, p: seq<Command>)
    requires b.line == [] && b.argv == [] && Alternating(p) && NoUser(p)
    requires p[|p| - 1].Exe? ==> p[|p| - 1].argv != []
    ensures Queue(FeedAll(b, p)) == b.ret + [p] && FeedAll(b, p).quits == b.quits
  {
    hide FeedAll, Alternating, NoUser;
    if EndsNumbered(p) {
      FedNumbered(b, p);
    } else {
      LastPlain(b, p);
    }
  }

  lemma FedLine(ps: seq<seq<Command>>)
    requires Printable(ps)
    ensures Queue(FeedLine(Blank, ps)) == ps && FeedLine(Blank, ps).quits == 0
  {
    hide FeedAll, Alternating, NoUser, EndsNumbered, Writable;
    if ps != [] {
      var n := |ps| - 1;
      FedNumberedLine(ps[..n]);
      assert ps == ps[..n] + [ps[n]];
      LastPiece(FeedLine(Blank, ps[..n]), ps[n]);
    }
  }

  lemma CommandIsWords(c: Command)
    requires Writable(c)
    ensures forall i :: 0 <= i < |CommandWords(c)| ==> IsWord(CommandWords(c)[i])
  {
    if c.Numbered? {
      ItoaWord(c.n);
      var w := CommandWords(c)[0];
      assert forall i :: 0 < i < |w| ==> w[i] == Itoa(c.n)[i - 1];
    }
  }

  lemma {:induction false} PieceIsWords(cmds: seq<Command>)
    requires forall j :: 0 <= j < |cmds| ==> Writable(cmds[j])
    ensures forall i :: 0 <= i < |PieceWords(cmds)| ==> IsWord(PieceWords(cmds)[i])
    decreases |cmds|
  {
    hide Writable, CommandWords, IsWord;
    if cmds != [] {
      PieceIsWords(cmds[..|cmds| - 1]);
      CommandIsWords(cmds[|cmds| - 1]);
    }
  }

  lemma {:induction false} LineIsWords(ps: seq<seq<Command>>)
    requires forall k, j :: 0 <= k < |ps| && 0 <= j < |ps[k]| ==> Writable(ps[k][j])
    ensures forall i :: 0 <= i < |LineWords(ps)| ==> IsWord(LineWords(ps)[i])
    decreases |ps|
  {
    hide Writable, IsWord, PieceWords;
    if ps != [] {
      LineIsWords(ps[..|ps| - 1]);
      PieceIsWords(ps[|ps| - 1]);
    }
  }

  /** Round trip: every printable sequence of pieces, written as one line, is read back as the
      same pieces, and nothing on the way ends the shell. */
  lemma ParsePrint(ps: seq<seq<Command>>)
    requires Printable(ps)
    ensures Parse(Print(ps)) == ps && Quits(Print(ps)) == 0
  {
    var ws := LineWords(ps);
    LineIsWords(ps);
    WordsJoin(ws);
    assert From(ws, 0, ws);
    FeedPieces(Blank, ws, 0, ps);
    FedLine(ps);
  }
}
