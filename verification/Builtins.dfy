/**
 What the words that are no programs do to a line: `exit`, `printenv` and `setenv` leave no trace in
 its pieces, and everything else is what the symbols say.
 */
module Builtins {
  import opened Shell
  import opened PieceRuns
  import opened Text
  import opened Parser
  import opened RoundTrip

  predicate AllWords(ws: seq<string>) {
    forall i :: 0 <= i < |ws| ==> IsWord(ws[i])
  }

  /** No word of the list asks for further words behind the list. */
  predicate Closed(ws: seq<string>) {
    && (forall i :: 0 <= i < |ws| && ws[i] == "setenv" ==> i + 2 < |ws|)
    && (forall i :: 0 <= i < |ws| && (ws[i] == "printenv" || ws[i] == ">") ==> i + 1 < |ws|)
  }

  /** The loop over more words, seen from the first of them. */
  lemma {:induction false} Behind(b: Build, front: seq<string>, back: seq<string>, i: nat)
    requires i <= |back|
    ensures Turns(b, front + back, |front| + i) == Turns(b, back, i)
    decreases |back| - i
  {
    if i < |back| {
      var ws := front + back;
      assert ws[|front| + i] == back[i] && (i + 1 < |back| ==> ws[|front| + i + 1] == back[i + 1]);
      assert NextAt(ws, |front| + i) == |front| + NextAt(back, i);
      Behind(Turn(b, back, i), front, back, NextAt(back, i));
    }
  }

  /** The loop over a closed list of words does not see what follows it. */
  lemma {:induction false} Through(b: Build, front: seq<string>, back: seq<string>, i: nat)
    requires i <= |front| && Closed(front)
    ensures Turns(b, front + back, i) == Turns(Turns(b, front, i), back, 0)
    decreases |front| - i
  {
    if i == |front| {
      Behind(b, front, back, 0);
    } else {
      var ws := front + back;
      assert ws[i] == front[i] && (i + 1 < |front| ==> ws[i + 1] == front[i + 1]);
      assert NextAt(ws, i) == NextAt(front, i);
      Through(Turn(b, front, i), front, back, NextAt(front, i));
    }
  }

  /** How often exit was read matters to nothing else. */
  lemma {:induction false} QuitsApart(b: Build, ws: seq<string>, i: nat, n: nat)
    requires i <= |ws|
    ensures Turns(b.(quits := b.quits + n), ws, i) == Turns(b, ws, i).(quits := Turns(b, ws, i).quits + n)
    decreases |ws| - i
  {
    if i < |ws| {
      var c := b.(quits := b.quits + n);
      assert Turn(c, ws, i) == Turn(b, ws, i).(quits := Turn(b, ws, i).quits + n);
      QuitsApart(Turn(b, ws, i), ws, NextAt(ws, i), n);
    }
  }

  /** The loop on a printed list of words. */
  lemma Joined(ws: seq<string>)
    requires AllWords(ws)
    ensures Parse(Join(ws)) == Queue(Turns(Blank, ws, 0)) && Quits(Join(ws)) == Turns(Blank, ws, 0).quits
  {
    WordsJoin(ws);
  }

  lemma Parts(a: seq<string>, b: seq<string>)
    ensures AllWords(a + b) <==> AllWords(a) && AllWords(b)
  {
    hide IsWord;
    if AllWords(a + b) {
      forall i | 0 <= i < |b|
        ensures IsWord(b[i])
      {
        assert b[i] == (a + b)[|a| + i];
      }
      forall i | 0 <= i < |a|
        ensures IsWord(a[i])
      {
        assert a[i] == (a + b)[i];
      }
    }
  }

  lemma Keywords()
    ensures IsWord("exit") && IsWord("printenv") && IsWord("setenv")
  {
  }

  /** The line with the words mid in the middle, if the loop takes them in one turn that leads to b1. */
  lemma Middle(front: seq<string>, mid: seq<string>, back: seq<string>, b1: Build)
    requires AllWords(front + back) && AllWords(mid) && Closed(front) && mid != [] && mid[0] != ">"
    requires Turn(Turns(Blank, front, 0), mid, 0) == b1 && 1 + Skips(mid[0]) == |mid|
    ensures var l := Join(front + mid + back);
            Parse(l) == Queue(Turns(b1, back, 0)) && Quits(l) == Turns(b1, back, 0).quits
  {
    hide Turns, Join, IsWord, Turn, AllWords, Parse, Quits, Queue, Closed;
    assert front + mid + back == front + (mid + back);
    Parts(front, back);
    Parts(mid, back);
    Parts(front, mid + back);
    Joined(front + (mid + back));
    Through(Blank, front, mid + back, 0);
    OneTurn(Turns(Blank, front, 0), mid, back, b1);
  }

  lemma OneTurn(b: Build, mid: seq<string>, back: seq<string>, b1: Build)
    requires mid != [] && mid[0] != ">" && Turn(b, mid, 0) == b1 && 1 + Skips(mid[0]) == |mid|
    ensures Turns(b, mid + back, 0) == Turns(b1, back, 0)
  {
    assert (mid + back)[0] == mid[0];
    assert Turn(b, mid + back, 0) == b1 && NextAt(mid + back, 0) == |mid|;
    Behind(b1, mid, back, 0);
  }

  lemma NoMiddle(front: seq<string>, back: seq<string>)
    requires AllWords(front + back) && Closed(front)
    ensures var l := Join(front + back); var b := Turns(Blank, front, 0);
            Parse(l) == Queue(Turns(b, back, 0)) && Quits(l) == Turns(b, back, 0).quits
  {
    Joined(front + back);
    Through(Blank, front, back, 0);
  }

  /** Of a line only its words matter. */
  lemma SameWords(line: string)
    ensures Parse(line) == Parse(Join(Words(line))) && Quits(line) == Quits(Join(Words(line)))
  {
    hide Turns, Join;
    WordsAre(line);
    Joined(Words(line));
  }

  /** `exit`, anywhere in a line but behind a word that takes it for an argument, ends the session once
      more and does nothing else. */
  lemma ExitRemoved(front: seq<string>, back: seq<string>)
    requires AllWords(front + back) && Closed(front)
    ensures var line, l := Join(front + back), Join(front + ["exit"] + back);
            Parse(l) == Parse(line) && Quits(l) == Quits(line) + 1
  {
    hide Turns, Join;
    var b := Turns(Blank, front, 0);
    NoMiddle(front, back);
    Keywords();
    Middle(front, ["exit"], back, b.(quits := b.quits + 1));
    QuitsApart(b, back, 0, 1);
  }

  /** `printenv` and the word behind it do nothing to a line's pieces, whatever that word is. */
  lemma PrintenvRemoved(front: seq<string>, back: seq<string>, v: string)
    requires AllWords(front + back) && IsWord(v) && Closed(front)
    ensures var line, l := Join(front + back), Join(front + ["printenv", v] + back);
            Parse(l) == Parse(line) && Quits(l) == Quits(line)
  {
    hide Turns, Join;
    NoMiddle(front, back);
    Keywords();
    Middle(front, ["printenv", v], back, Turns(Blank, front, 0));
  }

  /** Nor do `setenv` and the two words behind it. */
  lemma SetenvRemoved(front: seq<string>, back: seq<string>, v: string, x: string)
    requires AllWords(front + back) && IsWord(v) && IsWord(x) && Closed(front)
    ensures var line, l := Join(front + back), Join(front + ["setenv", v, x] + back);
            Parse(l) == Parse(line) && Quits(l) == Quits(line)
  {
    hide Turns, Join;
    NoMiddle(front, back);
    Keywords();
    Middle(front, ["setenv", v, x], back, Turns(Blank, front, 0));
  }

  /** At the end of a line their arguments may be missing. */
  lemma EndRemoved(front: seq<string>, v: string)
    requires AllWords(front) && IsWord(v) && Closed(front)
    ensures forall end :: end in [["printenv"], ["setenv"], ["setenv", v]] ==>
              Parse(Join(front + end)) == Parse(Join(front)) && Quits(Join(front + end)) == Quits(Join(front))
  {
    hide Turns, Join;
    assert front + [] == front;
    NoMiddle(front, []);
    TurnsNone(Turns(Blank, front, 0));
    forall end | end in [["printenv"], ["setenv"], ["setenv", v]]
      ensures Parse(Join(front + end)) == Parse(Join(front)) && Quits(Join(front + end)) == Quits(Join(front))
    {
      NoMiddle(front, end);
      LastTurn(Turns(Blank, front, 0), end);
    }
  }

  lemma TurnsNone(b: Build)
    ensures Turns(b, [], 0) == b
  {
  }

  lemma LastTurn(b: Build, end: seq<string>)
    requires end == ["printenv"] || end == ["setenv"] || (|end| == 2 && end[0] == "setenv")
    ensures Turns(b, end, 0) == b
  {
    assert Turn(b, end, 0) == b && NextAt(end, 0) == |end|;
    assert Turns(b, end, |end|) == b;
  }

  /** The words of ws other than w. */
  function Others(ws: seq<string>, w: string): seq<string> {
    if ws == [] then [] else Others(ws[..|ws| - 1], w) + if ws[|ws| - 1] == w then [] else [ws[|ws| - 1]]
  }

  lemma {:induction false} OthersAre(ws: seq<string>, w: string)
    ensures forall x :: x in Others(ws, w) <==> x in ws && x != w
    ensures |Others(ws, w)| + multiset(ws)[w] == |ws|
    decreases |ws|
  {
    if ws != [] {
      OthersAre(ws[..|ws| - 1], w);
      assert ws == ws[..|ws| - 1] + [ws[|ws| - 1]];
    }
  }

  lemma OthersNone(w: string)
    ensures Others([], w) == []
  {
  }

  lemma OthersMore(ws: seq<string>, x: string, w: string)
    ensures Others(ws + [x], w) == Others(ws, w) + if x == w then [] else [x]
  {
    assert (ws + [x])[..|ws|] == ws;
  }

  lemma OthersWords(ws: seq<string>, back: seq<string>)
    requires AllWords(ws + back)
    ensures AllWords(Others(ws, "exit") + back)
  {
    hide IsWord;
    OthersAre(ws, "exit");
    Parts(ws, back);
    Parts(Others(ws, "exit"), back);
    forall i | 0 <= i < |Others(ws, "exit")|
      ensures IsWord(Others(ws, "exit")[i])
    {
      assert Others(ws, "exit")[i] in ws;
    }
  }

  /** A line is left for good as often as it says exit, and its pieces are those of the line without
      it. */
  lemma {:induction false} ExitsCounted(ws: seq<string>, back: seq<string>)
    requires AllWords(ws + back) && ">" !in ws && "setenv" !in ws && "printenv" !in ws
    ensures Parse(Join(ws + back)) == Parse(Join(Others(ws, "exit") + back))
    ensures Quits(Join(ws + back)) == Quits(Join(Others(ws, "exit") + back)) + multiset(ws)["exit"]
    decreases |ws|
  {
    hide Join, Parse, Quits, AllWords, Others;
    if ws == [] {
      OthersNone("exit");
    } else {
      var n := |ws| - 1;
      var w := ws[n];
      assert ws == ws[..n] + [w];
      assert ws + back == ws[..n] + ([w] + back);
      OthersAre(ws[..n], "exit");
      Parts(ws, back);
      Parts(ws[..n], [w]);
      Parts(ws[..n], back);
      ExitsCounted(ws[..n], [w] + back);
      var rest := Others(ws[..n], "exit");
      assert rest + [w] + back == rest + ([w] + back);
      OthersMore(ws[..n], w, "exit");
      if w == "exit" {
        assert rest + [] == rest;
        OthersWords(ws[..n], back);
        ExitRemoved(rest, back);
      }
    }
  }

  /** A line that nowhere says exit does not end the session. */
  lemma NoExit(line: string)
    requires "exit" !in Words(line)
    ensures Quits(line) == 0
  {
    NoneCounted(Blank, Words(line), 0);
  }

  lemma {:induction false} NoneCounted(b: Build, ws: seq<string>, i: nat)
    requires i <= |ws| && "exit" !in ws
    ensures Turns(b, ws, i).quits == b.quits
    decreases |ws| - i
  {
    if i < |ws| { NoneCounted(Turn(b, ws, i), ws, NextAt(ws, i)); }
  }

  /** A number behind `|` or `!` is whatever atoi makes of the rest of the word. */
  lemma AnyNumber(front: seq<string>, back: seq<string>, t: string)
    requires AllWords(front + back) && Closed(front) && IsWord("!" + t)
    ensures Parse(Join(front + ["!" + t] + back)) == Parse(Join(front + ["!" + Itoa(Atoi(t))] + back))
    ensures t != "" ==> Parse(Join(front + ["|" + t] + back)) == Parse(Join(front + ["|" + Itoa(Atoi(t))] + back))
  {
    hide Turns, Join, Itoa, Atoi;
    SameNumber(front, back, '!', t);
    if t != "" { SameNumber(front, back, '|', t); }
  }

  lemma SignWord(c: char, t: string)
    requires !IsSpace(c) && IsWord("!" + t)
    ensures IsWord([c] + t) && ([c] + t)[1..] == t
  {
    forall i | 0 < i < |[c] + t|
      ensures !IsSpace(([c] + t)[i])
    {
      assert ([c] + t)[i] == ("!" + t)[i];
    }
  }

  lemma SameNumber(front: seq<string>, back: seq<string>, c: char, t: string)
    requires AllWords(front + back) && Closed(front) && (c == '!' || (c == '|' && t != "")) && IsWord("!" + t)
    ensures Parse(Join(front + [[c] + t] + back)) == Parse(Join(front + [[c] + Itoa(Atoi(t))] + back))
  {
    hide Turns, Join, Itoa, Atoi, IsWord;
    var u := Itoa(Atoi(t));
    SignWord(c, t);
    ItoaSign(Atoi(t));
    SignWord(c, u);
    AtoiOnce(t);
    var b := Turns(Blank, front, 0);
    SameTurn(b, c, t, u);
    Middle(front, [[c] + t], back, Turn(b, [[c] + t], 0));
    Middle(front, [[c] + u], back, Turn(b, [[c] + t], 0));
  }

  lemma ItoaSign(n: int)
    ensures Itoa(n) != "" && IsWord("!" + Itoa(n))
  {
    ItoaWord(n);
    var w := "!" + Itoa(n);
    assert forall i :: 0 < i < |w| ==> w[i] == Itoa(n)[i - 1];
  }

  lemma SameTurn(b: Build, c: char, t: string, u: string)
    requires (c == '!' || (c == '|' && t != "")) && u != "" && Atoi(t) == Atoi(u)
    ensures Turn(b, [[c] + t], 0) == Turn(b, [[c] + u], 0)
    ensures Skips([c] + t) == 0 == Skips([c] + u) && [c] + t != ">" && [c] + u != ">"
  {
    hide Atoi;
    assert ([c] + t)[1..] == t && ([c] + u)[1..] == u;
    assert ([c] + t)[0] == c && ([c] + u)[0] == c;
  }

  lemma AtoiOnce(t: string)
    ensures Atoi(Itoa(Atoi(t))) == Atoi(t)
  {
    AtoiItoa(Atoi(t));
  }

  /** A missing file name is the empty one. */
  lemma NoFileName(front: seq<string>, name: string)
    requires AllWords(front) && IsWord(name) && Closed(front)
    ensures var ps, qs := Parse(Join(front + [">"])), Parse(Join(front + [">", name]));
            && |ps| == |qs| > 0 && ps[..|ps| - 1] == qs[..|qs| - 1]
            && var p, q := ps[|ps| - 1], qs[|qs| - 1];
               |p| == |q| >= 2 && p[..|p| - 1] == q[..|q| - 1] && p[|p| - 1] == FileTo("") && q[|q| - 1] == FileTo(name)
  {
    hide Turns, Join, IsWord;
    var b := Turns(Blank, front, 0);
    FileWords(front, name);
    NoMiddle(front, [">"]);
    NoMiddle(front, [">", name]);
    FileTurn(b, [">"], "");
    FileTurn(b, [">", name], name);
  }

  lemma FileWords(front: seq<string>, name: string)
    requires AllWords(front) && IsWord(name)
    ensures AllWords(front + [">"]) && AllWords(front + [">", name])
  {
    Parts(front, [">"]);
    Parts(front, [">", name]);
  }

  lemma FileTurn(b: Build, end: seq<string>, name: string)
    requires (end == [">"] && name == "") || end == [">", name]
    ensures Turns(b, end, 0) == b.(line := b.line + [Exe(b.argv), FileTo(name)], argv := [])
  {
    assert NextAt(end, 0) == |end|;
  }

  /** The symbols: arguments up to a connector make a program; `|` is a pipe, `>` with the word behind
      it a file, and `|n` and `!n` end the piece, the second with standard error in the pipe as well. */
  lemma Symbols(a: seq<string>, b: seq<string>, name: string, c: seq<string>, n: int, err: bool, d: seq<string>)
    requires IsWord(name) && -2147483648 <= n <= 2147483647
    requires forall w :: w in a + b + c + d ==>
               && IsWord(w) && w[0] != '|' && w[0] != '!'
               && w != ">" && w != "exit" && w != "printenv" && w != "setenv"
    ensures var piece := [Exe(a), PipeTo, Exe(b), FileTo(name), Exe(c), Numbered(n, err)];
            var l := Join(a + ["|"] + b + [">", name] + c + [(if err then "!" else "|") + Itoa(n)] + d);
            Parse(l) == (if d == [] then [piece] else [piece, [Exe(d)]]) && Quits(l) == 0
  {
    var piece := [Exe(a), PipeTo, Exe(b), FileTo(name), Exe(c), Numbered(n, err)];
    var ps := if d == [] then [piece] else [piece, [Exe(d)]];
    SymbolWords(a, b, name, c, n, err, d);
    SymbolsPrintable(a, b, name, c, n, err, d);
    ParsePrint(ps);
  }

  predicate PlainArgs(argv: seq<string>) {
    forall i :: 0 <= i < |argv| ==> Plain(argv[i])
  }

  lemma PlainWords(a: seq<string>, all: seq<string>)
    requires forall w :: w in a ==> w in all
    requires forall w :: w in all ==>
               && IsWord(w) && w[0] != '|' && w[0] != '!'
               && w != ">" && w != "exit" && w != "printenv" && w != "setenv"
    ensures PlainArgs(a)
  {
    hide IsWord;
    forall i | 0 <= i < |a|
      ensures Plain(a[i])
    {
      assert a[i] in all;
    }
  }

  lemma PiecePrintable(a: seq<string>, b: seq<string>, name: string, c: seq<string>, n: int, err: bool)
    requires IsWord(name) && IsInt(n) && PlainArgs(a) && PlainArgs(b) && PlainArgs(c)
    ensures var p := [Exe(a), PipeTo, Exe(b), FileTo(name), Exe(c), Numbered(n, err)];
            Alternating(p) && NoUser(p) && EndsNumbered(p) && forall i :: 0 <= i < |p| ==> Writable(p[i])
  {
    hide IsWord, Plain;
  }

  lemma LastPrintable(d: seq<string>)
    requires PlainArgs(d)
    ensures var p := [Exe(d)]; Alternating(p) && NoUser(p) && forall i :: 0 <= i < |p| ==> Writable(p[i])
  {
    hide Plain;
  }

  lemma SymbolsPrintable(a: seq<string>, b: seq<string>, name: string, c: seq<string>, n: int, err: bool, d: seq<string>)
    requires IsWord(name) && IsInt(n)
    requires forall w :: w in a + b + c + d ==>
               && IsWord(w) && w[0] != '|' && w[0] != '!'
               && w != ">" && w != "exit" && w != "printenv" && w != "setenv"
    ensures var piece := [Exe(a), PipeTo, Exe(b), FileTo(name), Exe(c), Numbered(n, err)];
            Printable(if d == [] then [piece] else [piece, [Exe(d)]])
  {
    hide IsWord, Plain, PlainArgs, Alternating, NoUser, Writable, EndsNumbered;
    PlainWords(a, a + b + c + d);
    PlainWords(b, a + b + c + d);
    PlainWords(c, a + b + c + d);
    PlainWords(d, a + b + c + d);
    PiecePrintable(a, b, name, c, n, err);
    LastPrintable(d);
  }

  lemma PieceWordsMore(cmds: seq<Command>, c: Command)
    ensures PieceWords(cmds + [c]) == PieceWords(cmds) + CommandWords(c)
  {
    assert (cmds + [c])[..|cmds|] == cmds;
  }

  lemma SymbolWords(a: seq<string>, b: seq<string>, name: string, c: seq<string>, n: int, err: bool, d: seq<string>)
    ensures var piece := [Exe(a), PipeTo, Exe(b), FileTo(name), Exe(c), Numbered(n, err)];
            LineWords(if d == [] then [piece] else [piece, [Exe(d)]])
              == a + ["|"] + b + [">", name] + c + [(if err then "!" else "|") + Itoa(n)] + d
  {
    hide Itoa, PieceWords, LineWords;
    var piece := [Exe(a), PipeTo, Exe(b), FileTo(name), Exe(c), Numbered(n, err)];
    SymbolPiece(a, b, name, c, n, err);
    OnePiece(d);
    TwoPieces(piece, [Exe(d)]);
    if d == [] {
      assert PieceWords(piece) + d == PieceWords(piece);
    }
  }

  lemma TwoPieces(p: seq<Command>, q: seq<Command>)
    ensures LineWords([p]) == PieceWords(p) && LineWords([p, q]) == PieceWords(p) + PieceWords(q)
  {
    hide PieceWords;
    LineWordsMore([], p);
    LineWordsMore([p], q);
    assert [] + [p] == [p] && [p] + [q] == [p, q];
  }

  lemma LineWordsMore(ps: seq<seq<Command>>, p: seq<Command>)
    ensures LineWords(ps + [p]) == LineWords(ps) + PieceWords(p)
  {
    hide PieceWords;
    assert (ps + [p])[..|ps|] == ps;
  }

  lemma OnePiece(d: seq<string>)
    ensures PieceWords([Exe(d)]) == d
  {
    assert [] + [Exe(d)] == [Exe(d)];
    PieceWordsMore([], Exe(d));
  }

  lemma CommandWordsAre(argv: seq<string>, name: string, n: int, err: bool)
    ensures CommandWords(Exe(argv)) == argv && CommandWords(PipeTo) == ["|"] && CommandWords(FileTo(name)) == [">", name]
    ensures CommandWords(Numbered(n, err)) == [(if err then "!" else "|") + Itoa(n)]
  {
  }

  lemma SymbolPiece(a: seq<string>, b: seq<string>, name: string, c: seq<string>, n: int, err: bool)
    ensures PieceWords([Exe(a), PipeTo, Exe(b), FileTo(name), Exe(c), Numbered(n, err)])
         == a + ["|"] + b + [">", name] + c + [(if err then "!" else "|") + Itoa(n)]
  {
    hide Itoa, PieceWords, CommandWords;
    CommandWordsAre(b, name, n, err);
    CommandWordsAre(c, name, n, err);
    OnePiece(a);
    var p2 := [Exe(a)] + [PipeTo];
    var p3 := p2 + [Exe(b)];
    var p4 := p3 + [FileTo(name)];
    var p5 := p4 + [Exe(c)];
    PieceWordsMore([Exe(a)], PipeTo);
    PieceWordsMore(p2, Exe(b));
    PieceWordsMore(p3, FileTo(name));
    PieceWordsMore(p4, Exe(c));
    PieceWordsMore(p5, Numbered(n, err));
    assert p5 + [Numbered(n, err)] == [Exe(a), PipeTo, Exe(b), FileTo(name), Exe(c), Numbered(n, err)];
  }
}
