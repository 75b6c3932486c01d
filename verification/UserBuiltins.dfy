/**
 What the words that are no programs do to a line in the single-process server: those of the shell,
 `who`, the three that take the rest of the line as a message, and the ids of users.
 */
module UserBuiltins {
  import opened Shell
  import opened Text
  import opened Parser
  import opened Builtins
  import opened UserShell
  import opened UserParser

  /** No word of the list asks for anything behind the list. */
  predicate UClosed(ws: seq<string>) {
    Closed(ws) && "tell" !in ws && "yell" !in ws && "name" !in ws
  }

  /** The loop over more words, seen from the first of them. */
  lemma {:induction false} UBehind(b: UBuild, front: seq<string>, back: seq<string>, i: nat)
    requires i <= |back|
    ensures UTurns(b, front + back, |front| + i) == UTurns(b, back, i)
    decreases |back| - i
  {
    if i < |back| {
      var ws := front + back;
      assert ws[|front| + i] == back[i] && (i + 1 < |back| ==> ws[|front| + i + 1] == back[i + 1]);
      assert UNextAt(ws, |front| + i) == |front| + UNextAt(back, i);
      UBehind(UTurn(b, back, i), front, back, UNextAt(back, i));
    }
  }

  /** The loop over a closed list of words does not see what follows it. */
  lemma {:induction false} UThrough(b: UBuild, front: seq<string>, back: seq<string>, i: nat)
    requires i <= |front| && UClosed(front)
    ensures UTurns(b, front + back, i) == UTurns(UTurns(b, front, i), back, 0)
    decreases |front| - i
  {
    if i == |front| {
      UBehind(b, front, back, 0);
    } else {
      var ws := front + back;
      assert ws[i] == front[i] && (i + 1 < |front| ==> ws[i + 1] == front[i + 1]);
      assert UNextAt(ws, i) == UNextAt(front, i);
      UThrough(UTurn(b, front, i), front, back, UNextAt(front, i));
    }
  }

  /** How often exit was read matters to nothing else. */
  lemma {:induction false} UQuitsApart(b: UBuild, ws: seq<string>, i: nat, n: nat)
    requires i <= |ws|
    ensures UTurns(b.(quits := b.quits + n), ws, i) == UTurns(b, ws, i).(quits := UTurns(b, ws, i).quits + n)
    decreases |ws| - i
  {
    if i < |ws| {
      var c := b.(quits := b.quits + n);
      assert UTurn(c, ws, i) == UTurn(b, ws, i).(quits := UTurn(b, ws, i).quits + n);
      UQuitsApart(UTurn(b, ws, i), ws, UNextAt(ws, i), n);
    }
  }

  /** The loop on a printed list of words. */
  lemma UJoined(ws: seq<string>)
    requires AllWords(ws)
    ensures UParse(Join(ws)) == UQueue(UTurns(UBlank, ws, 0)) && UQuits(Join(ws)) == UTurns(UBlank, ws, 0).quits
  {
    WordsJoin(ws);
  }

  /** The line with the words mid in the middle, if the loop takes them in one turn that leads to b1. */
  lemma UMiddle(front: seq<string>, mid: seq<string>, back: seq<string>, b1: UBuild)
    requires AllWords(front + back) && AllWords(mid) && UClosed(front) && mid != [] && mid[0] != ">" && !Speaks(mid[0])
    requires UTurn(UTurns(UBlank, front, 0), mid, 0) == b1 && 1 + Skips(mid[0]) == |mid|
    ensures var l := Join(front + mid + back);
            UParse(l) == UQueue(UTurns(b1, back, 0)) && UQuits(l) == UTurns(b1, back, 0).quits
  {
    hide UTurns, Join, IsWord, UTurn, AllWords, UParse, UQuits, UQueue, UClosed;
    assert front + mid + back == front + (mid + back);
    Parts(front, back);
    Parts(mid, back);
    Parts(front, mid + back);
    UJoined(front + (mid + back));
    UThrough(UBlank, front, mid + back, 0);
    UOneTurn(UTurns(UBlank, front, 0), mid, back, b1);
  }

  lemma UOneTurn(b: UBuild, mid: seq<string>, back: seq<string>, b1: UBuild)
    requires mid != [] && mid[0] != ">" && !Speaks(mid[0]) && UTurn(b, mid, 0) == b1 && 1 + Skips(mid[0]) == |mid|
    ensures UTurns(b, mid + back, 0) == UTurns(b1, back, 0)
  {
    assert (mid + back)[0] == mid[0];
    assert UTurn(b, mid + back, 0) == b1 && UNextAt(mid + back, 0) == |mid|;
    UBehind(b1, mid, back, 0);
  }

  lemma UNoMiddle(front: seq<string>, back: seq<string>)
    requires AllWords(front + back) && UClosed(front)
    ensures var l := Join(front + back); var b := UTurns(UBlank, front, 0);
            UParse(l) == UQueue(UTurns(b, back, 0)) && UQuits(l) == UTurns(b, back, 0).quits
  {
    UJoined(front + back);
    UThrough(UBlank, front, back, 0);
  }

  /** Of a line only its words matter. */
  lemma USameWords(line: string)
    ensures UParse(line) == UParse(Join(Words(line))) && UQuits(line) == UQuits(Join(Words(line)))
  {
    hide UTurns, Join;
    WordsAre(line);
    UJoined(Words(line));
  }

  /** `exit`, anywhere in a line but behind a word that takes it for an argument, ends the session once
      more and does nothing else. */
  lemma UExitRemoved(front: seq<string>, back: seq<string>)
    requires AllWords(front + back) && UClosed(front)
    ensures var line, l := Join(front + back), Join(front + ["exit"] + back);
            UParse(l) == UParse(line) && UQuits(l) == UQuits(line) + 1
  {
    hide UTurns, Join;
    var b := UTurns(UBlank, front, 0);
    UNoMiddle(front, back);
    Keywords();
    UMiddle(front, ["exit"], back, b.(quits := b.quits + 1));
    UQuitsApart(b, back, 0, 1);
  }

  /** `printenv` and the word behind it do nothing to a line's pieces, whatever that word is. */
  lemma UPrintenvRemoved(front: seq<string>, back: seq<string>, v: string)
    requires AllWords(front + back) && IsWord(v) && UClosed(front)
    ensures var line, l := Join(front + back), Join(front + ["printenv", v] + back);
            UParse(l) == UParse(line) && UQuits(l) == UQuits(line)
  {
    hide UTurns, Join;
    UNoMiddle(front, back);
    Keywords();
    UMiddle(front, ["printenv", v], back, UTurns(UBlank, front, 0));
  }

  /** Nor do `setenv` and the two words behind it. */
  lemma USetenvRemoved(front: seq<string>, back: seq<string>, v: string, x: string)
    requires AllWords(front + back) && IsWord(v) && IsWord(x) && UClosed(front)
    ensures var line, l := Join(front + back), Join(front + ["setenv", v, x] + back);
            UParse(l) == UParse(line) && UQuits(l) == UQuits(line)
  {
    hide UTurns, Join;
    UNoMiddle(front, back);
    Keywords();
    UMiddle(front, ["setenv", v, x], back, UTurns(UBlank, front, 0));
  }

  /** Nor does `who`. */
  lemma UWhoRemoved(front: seq<string>, back: seq<string>)
    requires AllWords(front + back) && UClosed(front)
    ensures var line, l := Join(front + back), Join(front + ["who"] + back);
            UParse(l) == UParse(line) && UQuits(l) == UQuits(line)
  {
    hide UTurns, Join;
    UNoMiddle(front, back);
    assert IsWord("who");
    UMiddle(front, ["who"], back, UTurns(UBlank, front, 0));
  }

  /** `tell`, `yell` and `name` take the whole rest of the line, whatever it says. */
  lemma SpeechRemoved(front: seq<string>, speech: string, back: seq<string>)
    requires AllWords(front + [speech] + back) && UClosed(front)
    requires speech == "tell" || speech == "yell" || speech == "name"
    ensures var line, l := Join(front), Join(front + [speech] + back);
            UParse(l) == UParse(line) && UQuits(l) == UQuits(line)
  {
    hide UTurns, Join, IsWord;
    var b := UTurns(UBlank, front, 0);
    Parts(front + [speech], back);
    Parts(front, [speech]);
    assert front + [] == front;
    assert front + [speech] + back == front + ([speech] + back);
    UNoMiddle(front, []);
    UTurnsNone(b);
    UNoMiddle(front, [speech] + back);
    SpeechTurns(b, speech, back);
  }

  lemma SpeechTurns(b: UBuild, speech: string, back: seq<string>)
    requires speech == "tell" || speech == "yell" || speech == "name"
    ensures UTurns(b, [speech] + back, 0) == b
  {
    var ws := [speech] + back;
    assert UTurn(b, ws, 0) == b && UNextAt(ws, 0) == |ws|;
    assert UTurns(b, ws, |ws|) == b;
  }

  /** At the end of a line their arguments may be missing. */
  lemma UEndRemoved(front: seq<string>, v: string)
    requires AllWords(front) && IsWord(v) && UClosed(front)
    ensures forall end :: end in [["printenv"], ["setenv"], ["setenv", v]] ==>
              UParse(Join(front + end)) == UParse(Join(front)) && UQuits(Join(front + end)) == UQuits(Join(front))
  {
    hide UTurns, Join;
    assert front + [] == front;
    UNoMiddle(front, []);
    UTurnsNone(UTurns(UBlank, front, 0));
    forall end | end in [["printenv"], ["setenv"], ["setenv", v]]
      ensures UParse(Join(front + end)) == UParse(Join(front)) && UQuits(Join(front + end)) == UQuits(Join(front))
    {
      UNoMiddle(front, end);
      ULastTurn(UTurns(UBlank, front, 0), end);
    }
  }

  lemma UTurnsNone(b: UBuild)
    ensures UTurns(b, [], 0) == b
  {
  }

  lemma ULastTurn(b: UBuild, end: seq<string>)
    requires end == ["printenv"] || end == ["setenv"] || (|end| == 2 && end[0] == "setenv")
    ensures UTurns(b, end, 0) == b
  {
    assert UTurn(b, end, 0) == b && UNextAt(end, 0) == |end|;
    assert UTurns(b, end, |end|) == b;
  }

  /** A line is left for good as often as it says exit, and its pieces are those of the line without
      it. */
  lemma {:induction false} UExitsCounted(ws: seq<string>, back: seq<string>)
    requires AllWords(ws + back) && ">" !in ws && "setenv" !in ws && "printenv" !in ws
    requires "tell" !in ws && "yell" !in ws && "name" !in ws
    ensures UParse(Join(ws + back)) == UParse(Join(Others(ws, "exit") + back))
    ensures UQuits(Join(ws + back)) == UQuits(Join(Others(ws, "exit") + back)) + multiset(ws)["exit"]
    decreases |ws|
  {
    hide Join, UParse, UQuits, AllWords, Others;
    if ws == [] {
      OthersNone("exit");
    } else {
      var n := |ws| - 1;
      var w := ws[n];
      assert ws == ws[..n] + [w];
      assert ws + back == ws[..n] + ([w] + back);
      OthersAre(ws[..n], "exit");
      Parts(ws, back);
      Parts(ws[..n], [w]);
      Parts(ws[..n], back);
      UExitsCounted(ws[..n], [w] + back);
      var rest := Others(ws[..n], "exit");
      assert rest + [w] + back == rest + ([w] + back);
      OthersMore(ws[..n], w, "exit");
      if w == "exit" {
        assert rest + [] == rest;
        OthersWords(ws[..n], back);
        UExitRemoved(rest, back);
      }
    }
  }

  /** A line that nowhere says exit does not end the session. */
  lemma UNoExit(line: string)
    requires "exit" !in Words(line)
    ensures UQuits(line) == 0
  {
    UNoneCounted(UBlank, Words(line), 0);
  }

  lemma {:induction false} UNoneCounted(b: UBuild, ws: seq<string>, i: nat)
    requires i <= |ws| && "exit" !in ws
    ensures UTurns(b, ws, i).quits == b.quits
    decreases |ws| - i
  {
    if i < |ws| { UNoneCounted(UTurn(b, ws, i), ws, UNextAt(ws, i)); }
  }

  /** A number behind `|` or `!`, and an id behind `<` or `>`, is whatever atoi makes of the rest of
      the word. */
  lemma UAnyNumber(front: seq<string>, back: seq<string>, c: char, t: string)
    requires AllWords(front + back) && UClosed(front) && IsWord("!" + t)
    requires c == '!' || c == '<' || (c == '|' && t != "") || (c == '>' && t != "")
    ensures UParse(Join(front + [[c] + t] + back)) == UParse(Join(front + [[c] + Itoa(Atoi(t))] + back))
  {
    hide UTurns, Join, Itoa, Atoi, IsWord;
    var u := Itoa(Atoi(t));
    SignWord(c, t);
    ItoaSign(Atoi(t));
    SignWord(c, u);
    AtoiOnce(t);
    var b := UTurns(UBlank, front, 0);
    USameTurn(b, c, t, u);
    UMiddle(front, [[c] + t], back, UTurn(b, [[c] + t], 0));
    UMiddle(front, [[c] + u], back, UTurn(b, [[c] + t], 0));
  }

  lemma USameTurn(b: UBuild, c: char, t: string, u: string)
    requires (c == '!' || c == '<' || (c == '|' && t != "") || (c == '>' && t != "")) && u != "" && Atoi(t) == Atoi(u)
    ensures UTurn(b, [[c] + t], 0) == UTurn(b, [[c] + u], 0)
    ensures Skips([c] + t) == 0 == Skips([c] + u) && [c] + t != ">" && [c] + u != ">"
    ensures !Speaks([c] + t) && !Speaks([c] + u)
  {
    hide Atoi;
    assert ([c] + t)[1..] == t && ([c] + u)[1..] == u;
    assert ([c] + t)[0] == c && ([c] + u)[0] == c;
  }

  lemma ReadTurn(b: UBuild, t: string)
    ensures var w := "<" + t;
            UTurn(b, [w], 0) == b.(readUid := Atoi(t)) && Skips(w) == 0 && w != ">" && !Speaks(w) && [w] != []
  {
    assert ("<" + t)[1..] == t && ("<" + t)[0] == '<';
  }

  /** Of two ids to read from the later counts. */
  lemma LastReadWins(front: seq<string>, back: seq<string>, t: string, u: string)
    requires AllWords(front + back) && UClosed(front) && IsWord("!" + t) && IsWord("!" + u)
    ensures UParse(Join(front + ["<" + t, "<" + u] + back)) == UParse(Join(front + ["<" + u] + back))
  {
    hide UTurns, UTurn, UClosed, UParse, UQueue, Skips, Join, Itoa, Atoi, IsWord;
    SignWord('<', t);
    SignWord('<', u);
    var b := UTurns(UBlank, front, 0);
    var b1 := b.(readUid := Atoi(t));
    ReadTurn(b, t);
    ReadTurn(b, u);
    ReadTurn(b1, u);
    Parts(front, back);
    Parts(["<" + u], back);
    Parts(front, ["<" + u] + back);
    assert front + ["<" + t, "<" + u] + back == front + ["<" + t] + (["<" + u] + back);
    UMiddle(front, ["<" + t], ["<" + u] + back, b1);
    UOneTurn(b1, ["<" + u], back, b.(readUid := Atoi(u)));
    UMiddle(front, ["<" + u], back, b.(readUid := Atoi(u)));
  }

  lemma SwapTurns(b: UBuild, t: string, w: string)
    requires UPlain(w) || w == "|"
    ensures UTurn(UTurn(b, [w], 0), ["<" + t], 0) == UTurn(UTurn(b, ["<" + t], 0), [w], 0)
    ensures Skips(w) == 0 && w != ">" && !Speaks(w)
  {
    ReadTurn(b, t);
    ReadTurn(UTurn(b, [w], 0), t);
  }

  /** Where in its piece an id to read from stands does not matter: it may change places with an
      argument and with `|`. */
  lemma ReadMoves(front: seq<string>, back: seq<string>, t: string, w: string)
    requires AllWords(front + back) && UClosed(front) && IsWord("!" + t) && (UPlain(w) || w == "|")
    ensures UParse(Join(front + [w, "<" + t] + back)) == UParse(Join(front + ["<" + t, w] + back))
  {
    hide UTurns, UTurn, UClosed, UParse, UQueue, Skips, Join, Itoa, Atoi, IsWord;
    SignWord('<', t);
    OneWord(w);
    var b := UTurns(UBlank, front, 0);
    var b1, b2 := UTurn(b, [w], 0), UTurn(b, ["<" + t], 0);
    var r := "<" + t;
    ReadTurn(b, t);
    SwapTurns(b, t, w);
    Parts(front, back);
    Parts([r], back);
    Parts([w], back);
    Parts(front, [r] + back);
    Parts(front, [w] + back);
    assert front + [w, r] + back == front + [w] + ([r] + back);
    assert front + [r, w] + back == front + [r] + ([w] + back);
    UMiddle(front, [w], [r] + back, b1);
    UOneTurn(b1, [r], back, UTurn(b1, [r], 0));
    UMiddle(front, [r], [w] + back, b2);
    UOneTurn(b2, [w], back, UTurn(b2, [w], 0));
  }

  lemma OneWord(w: string)
    requires UPlain(w) || w == "|"
    ensures IsWord(w)
  {
  }

  /** A missing file name is the empty one. */
  lemma UNoFileName(front: seq<string>, name: string)
    requires AllWords(front) && IsWord(name) && UClosed(front)
    ensures var ps, qs := UParse(Join(front + [">"])), UParse(Join(front + [">", name]));
            && |ps| == |qs| > 0 && ps[..|ps| - 1] == qs[..|qs| - 1]
            && var p, q := ps[|ps| - 1], qs[|qs| - 1];
               && p.readUid == q.readUid && p.writeUid == q.writeUid && |p.cmds| == |q.cmds| >= 2
               && var n := |p.cmds| - 1;
                  p.cmds[..n] == q.cmds[..n] && p.cmds[n] == FileTo("") && q.cmds[n] == FileTo(name)
  {
    hide UTurns, Join, IsWord;
    var b := UTurns(UBlank, front, 0);
    FileWords(front, name);
    UNoMiddle(front, [">"]);
    UNoMiddle(front, [">", name]);
    UFileTurn(b, [">"], "");
    UFileTurn(b, [">", name], name);
  }

  lemma UFileTurn(b: UBuild, end: seq<string>, name: string)
    requires (end == [">"] && name == "") || end == [">", name]
    ensures UTurns(b, end, 0) == b.(line := b.line + [Exe(b.argv), FileTo(name)], argv := [])
  {
    assert UNextAt(end, 0) == |end|;
  }

  /** The symbols: `<r` and `>u` name the users the piece reads from and writes to, besides what the
      shell's symbols say; the piece behind inherits both. */
  lemma USymbols(p: Piece, a: seq<string>, b: seq<string>, name: string, c: seq<string>, d: seq<string>, n: int, err: bool, e: seq<string>)
    requires p.cmds == [Exe(a), PipeTo, Exe(b), FileTo(name), Exe(c), UserTo, Exe(d), Numbered(n, err)]
    requires IsWord(name) && p.readUid != 0 && p.writeUid != 0 && -2147483648 <= n <= 2147483647
    requires -2147483648 <= p.readUid <= 2147483647 && -2147483648 <= p.writeUid <= 2147483647
    requires forall w :: w in a + b + c + d + e ==>
               && IsWord(w) && w[0] != '|' && w[0] != '!' && w[0] != '<' && w[0] != '>'
               && w != "exit" && w != "printenv" && w != "setenv"
               && w != "who" && w != "tell" && w != "yell" && w != "name"
    ensures var first := ["<" + Itoa(p.readUid)]
              + (a + ["|"] + b + [">", name] + c + [">" + Itoa(p.writeUid)] + d + [(if err then "!" else "|") + Itoa(n)]);
            && UQuits(Join(first)) == 0 == UQuits(Join(first + e))
            && UParse(Join(first)) == [p]
            && (e != [] ==> UParse(Join(first + e)) == [p, Piece([Exe(e)], p.readUid, p.writeUid)])
  {
    hide UParse, UQuits, Join, Itoa, IsWord, UPlainArgs, AllSymbols, Askable;
    AllUPlain(a, b, c, d, e);
    SymbolsInOrder(p, a, b, name, c, d, n, err);
    SymbolPieces(p, e, name, n, err);
  }

  predicate Askable(p: Piece, name: string, n: int, err: bool) {
    && AllSymbols(p.cmds, name, n, err) && IsWord(name) && IsInt(n)
    && UPlainArgs(p.cmds[0].argv) && UPlainArgs(p.cmds[2].argv) && UPlainArgs(p.cmds[4].argv) && UPlainArgs(p.cmds[6].argv)
    && IsInt(p.readUid) && p.readUid != 0 && IsInt(p.writeUid) && p.writeUid != 0
  }

  lemma SymbolsInOrder(p: Piece, a: seq<string>, b: seq<string>, name: string, c: seq<string>, d: seq<string>, n: int, err: bool)
    requires p.cmds == [Exe(a), PipeTo, Exe(b), FileTo(name), Exe(c), UserTo, Exe(d), Numbered(n, err)]
    requires UPlainArgs(a) && UPlainArgs(b) && UPlainArgs(c) && UPlainArgs(d)
    requires IsWord(name) && p.readUid != 0 && p.writeUid != 0 && IsInt(n) && IsInt(p.readUid) && IsInt(p.writeUid)
    ensures Askable(p, name, n, err) && AllSymbols(p.cmds, name, n, err)
    ensures p.cmds[0].argv == a && p.cmds[2].argv == b && p.cmds[4].argv == c && p.cmds[6].argv == d
  {
    hide IsWord, UPlainArgs;
  }

  lemma AllUPlain(a: seq<string>, b: seq<string>, c: seq<string>, d: seq<string>, e: seq<string>)
    requires forall w :: w in a + b + c + d + e ==>
               && IsWord(w) && w[0] != '|' && w[0] != '!' && w[0] != '<' && w[0] != '>'
               && w != "exit" && w != "printenv" && w != "setenv"
               && w != "who" && w != "tell" && w != "yell" && w != "name"
    ensures UPlainArgs(a) && UPlainArgs(b) && UPlainArgs(c) && UPlainArgs(d) && UPlainArgs(e)
  {
    hide IsWord, UPlainArgs;
    var all := a + b + c + d + e;
    UPlainWords(a, all);
    UPlainWords(b, all);
    UPlainWords(c, all);
    UPlainWords(d, all);
    UPlainWords(e, all);
  }

  lemma SymbolPieces(p: Piece, e: seq<string>, name: string, n: int, err: bool)
    requires AllSymbols(p.cmds, name, n, err) && Askable(p, name, n, err) && UPlainArgs(e)
    ensures var c := p.cmds;
            var first := ["<" + Itoa(p.readUid)]
              + (c[0].argv + ["|"] + c[2].argv + [">", name] + c[4].argv + [">" + Itoa(p.writeUid)] + c[6].argv
                   + [(if err then "!" else "|") + Itoa(n)]);
            && UQuits(Join(first)) == 0 == UQuits(Join(first + e))
            && UParse(Join(first)) == [p]
            && (e != [] ==> UParse(Join(first + e)) == [p, Piece([Exe(e)], p.readUid, p.writeUid)])
  {
    hide UParse, UQuits, Join, Itoa, IsWord, UPlainArgs, Asked, Carried, ULineWords, AllSymbols;
    var q := Piece([Exe(e)], 0, 0);
    SymbolsAsked(p, q, name, n, err);
    SymbolWordsAre(p, q, name, n, err);
    SymbolsCarried(p, q);
    UParsePrint([p]);
    if e == [] {
      assert ULineWords([p]) + e == ULineWords([p]);
    } else {
      UParsePrint([p, q]);
    }
  }

  predicate UPlainArgs(argv: seq<string>) {
    forall i :: 0 <= i < |argv| ==> UPlain(argv[i])
  }

  lemma UPlainWords(a: seq<string>, all: seq<string>)
    requires forall w :: w in a ==> w in all
    requires forall w :: w in all ==>
               && IsWord(w) && w[0] != '|' && w[0] != '!' && w[0] != '<' && w[0] != '>'
               && w != "exit" && w != "printenv" && w != "setenv"
               && w != "who" && w != "tell" && w != "yell" && w != "name"
    ensures UPlainArgs(a)
  {
    hide IsWord;
    forall i | 0 <= i < |a|
      ensures UPlain(a[i])
    {
      assert a[i] in all;
    }
  }

  predicate AllSymbols(cmds: seq<Command>, name: string, n: int, err: bool) {
    && |cmds| == 8 && (forall i :: i in [0, 2, 4, 6] ==> cmds[i].Exe?)
    && cmds[1] == PipeTo && cmds[3] == FileTo(name) && cmds[5] == UserTo && cmds[7] == Numbered(n, err)
  }

  lemma SymbolsAsked(p: Piece, q: Piece, name: string, n: int, err: bool)
    requires AllSymbols(p.cmds, name, n, err) && IsWord(name) && IsInt(n)
    requires UPlainArgs(p.cmds[0].argv) && UPlainArgs(p.cmds[2].argv) && UPlainArgs(p.cmds[4].argv) && UPlainArgs(p.cmds[6].argv)
    requires IsInt(p.readUid) && p.readUid != 0 && IsInt(p.writeUid) && p.writeUid != 0
    requires |q.cmds| == 1 && q.cmds[0].Exe? && UPlainArgs(q.cmds[0].argv) && q.readUid == 0 == q.writeUid
    ensures Asked([p]) && (q.cmds[0].argv != [] ==> Asked([p, q]))
  {
    hide IsWord, UPlain;
    assert UserTo == p.cmds[5] && UserTo in p.cmds;
    assert forall i :: 0 <= i < 8 ==> UWritable(p.cmds[i]);
    assert UserTo !in q.cmds;
  }

  lemma UCmdsMore(cmds: seq<Command>, c: Command, write: int)
    ensures UCmdsWords(cmds + [c], write) == UCmdsWords(cmds, write) + UCommandWords(c, write)
  {
    assert (cmds + [c])[..|cmds|] == cmds;
  }

  lemma UWordsAre(argv: seq<string>, name: string, n: int, err: bool, write: int)
    ensures UCommandWords(Exe(argv), write) == argv && UCommandWords(PipeTo, write) == ["|"]
    ensures UCommandWords(FileTo(name), write) == [">", name] && UCommandWords(UserTo, write) == [">" + Itoa(write)]
    ensures UCommandWords(Numbered(n, err), write) == [(if err then "!" else "|") + Itoa(n)]
    ensures UCmdsWords([Exe(argv)], write) == argv && UCmdsWords([], write) == []
  {
    assert [Exe(argv)][..0] == [];
  }

  lemma SymbolCmds(cmds: seq<Command>, name: string, n: int, err: bool, u: int)
    requires AllSymbols(cmds, name, n, err)
    ensures UCmdsWords(cmds, u)
         == cmds[0].argv + ["|"] + cmds[2].argv + [">", name] + cmds[4].argv + [">" + Itoa(u)] + cmds[6].argv
              + [(if err then "!" else "|") + Itoa(n)]
  {
    hide Itoa, UCmdsWords, UCommandWords;
    UWordsAre(cmds[0].argv, name, n, err, u);
    UWordsAre(cmds[2].argv, name, n, err, u);
    UWordsAre(cmds[4].argv, name, n, err, u);
    UWordsAre(cmds[6].argv, name, n, err, u);
    var p1 := [cmds[0]];
    var p2 := p1 + [cmds[1]];
    var p3 := p2 + [cmds[2]];
    var p4 := p3 + [cmds[3]];
    var p5 := p4 + [cmds[4]];
    var p6 := p5 + [cmds[5]];
    var p7 := p6 + [cmds[6]];
    UCmdsMore(p1, cmds[1], u);
    UCmdsMore(p2, cmds[2], u);
    UCmdsMore(p3, cmds[3], u);
    UCmdsMore(p4, cmds[4], u);
    UCmdsMore(p5, cmds[5], u);
    UCmdsMore(p6, cmds[6], u);
    UCmdsMore(p7, cmds[7], u);
    assert p7 + [cmds[7]] == cmds;
  }

  lemma SymbolWordsAre(p: Piece, q: Piece, name: string, n: int, err: bool)
    requires AllSymbols(p.cmds, name, n, err) && p.readUid != 0
    requires |q.cmds| == 1 && q.cmds[0].Exe? && q.readUid == 0 == q.writeUid
    ensures var c := p.cmds;
            var first := ["<" + Itoa(p.readUid)]
              + (c[0].argv + ["|"] + c[2].argv + [">", name] + c[4].argv + [">" + Itoa(p.writeUid)] + c[6].argv
                   + [(if err then "!" else "|") + Itoa(n)]);
            ULineWords([p]) == first && ULineWords([p, q]) == first + q.cmds[0].argv
  {
    hide Itoa, UCmdsWords;
    SymbolCmds(p.cmds, name, n, err, p.writeUid);
    UWordsAre(q.cmds[0].argv, name, n, err, q.writeUid);
    assert q.cmds == [Exe(q.cmds[0].argv)];
    assert [p][..0] == [] && [p, q][..1] == [p];
    assert ULineWords([p]) == UPieceWords(p);
  }

  lemma SymbolsCarried(p: Piece, q: Piece)
    requires p.readUid != 0 && p.writeUid != 0 && q.readUid == 0 == q.writeUid
    ensures Carried([p]) == [p] && Carried([p, q]) == [p, Piece(q.cmds, p.readUid, p.writeUid)]
  {
    assert [p][..0] == [] && [p, q][..1] == [p];
    assert LatestRead([p]) == p.readUid && LatestWrite([p]) == p.writeUid;
  }
}
