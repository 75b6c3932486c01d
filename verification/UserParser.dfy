/**
 Splitting a user's line into pieces in the single-process server, where `<n` and `>n` name other
 users.  The ids a line's pieces carry outlive the piece they were written in.
 */
module UserParser {
  import opened Shell
  import opened Text
  import opened Parser
  import opened RoundTrip
  import opened UserShell

  datatype UBuild = UBuild(ret: seq<Piece>, line: seq<Command>, argv: seq<string>, readUid: int, writeUid: int, quits: nat)

  const UBlank := UBuild([], [], [], 0, 0, 0)

  function UAdd(b: UBuild, c: Command): UBuild {
    b.(line := b.line + [Exe(b.argv), c], argv := [])
  }

  /** Words after which the rest of the line is a message. */
  predicate Speaks(w: string) {
    w == "tell" || w == "yell" || w == "name"
  }

  predicate Names(w: string, c: char) {
    w != [] && w[0] == c
  }

  function UNextAt(ws: seq<string>, i: nat): nat
    requires i < |ws|
  {
    if Speaks(ws[i]) then |ws| else NextAt(ws, i)
  }

  /** The finished piece keeps the ids, and so does the line that goes on. */
  function EndPiece(b: UBuild): UBuild {
    b.(ret := b.ret + [Piece(b.line, b.readUid, b.writeUid)], line := [])
  }

  /** One turn of the loop. */
  function UTurn(b: UBuild, ws: seq<string>, i: nat): UBuild
    requires i < |ws|
  {
    var w := ws[i];
    if w == "exit" then b.(quits := b.quits + 1)
    else if w == "printenv" || w == "setenv" || w == "who" || Speaks(w) then b
    else if w == "|" then UAdd(b, PipeTo)
    else if w == ">" then UAdd(b, FileTo(if i + 1 < |ws| then ws[i + 1] else ""))
    else if IsNumbered(w) then EndPiece(UAdd(b, Numbered(Atoi(w[1..]), w[0] == '!')))
    else if Names(w, '>') then UAdd(b.(writeUid := Atoi(w[1..])), UserTo)
    else if Names(w, '<') then b.(readUid := Atoi(w[1..]))
    else b.(argv := b.argv + [w])
  }

  function UTurns(b: UBuild, ws: seq<string>, i: nat): UBuild
    requires i <= |ws|
    decreases |ws| - i
  {
    if i == |ws| then b else UTurns(UTurn(b, ws, i), ws, UNextAt(ws, i))
  }

  function UQueue(b: UBuild): seq<Piece> {
    var line := if b.argv != [] then b.line + [Exe(b.argv)] else b.line;
    if line != [] then b.ret + [Piece(line, b.readUid, b.writeUid)] else b.ret
  }

  function UParse(line: string): seq<Piece> {
    UQueue(UTurns(UBlank, Words(line), 0))
  }

  /** The body of the loop, for the word at position i. */
  method ParseWord(words: seq<string>, i: nat, b0: UBuild) returns (b: UBuild, next: nat)
    requires i < |words|
    ensures b == UTurn(b0, words, i) && next == UNextAt(words, i)
  {
    var UBuild(ret, line, argv, readUid, writeUid, quits) := b0;
    var word := words[i];
    next := i + 1;
    if word == "exit" {
      quits := quits + 1;
    } else if word == "printenv" {
      next := i + 2;
    } else if word == "setenv" {
      next := i + 3;
    } else if word == "who" {
    } else if word == "tell" || word == "yell" || word == "name" {
      next := |words|;
    } else if word == "|" {
      line := line + [Exe(argv), PipeTo];
      argv := [];
    } else if word == ">" {
      line := line + [Exe(argv), FileTo(if i + 1 < |words| then words[i + 1] else "")];
      argv := [];
      next := i + 2;
    } else if word != "" && (word[0] == '|' || word[0] == '!') {
      line := line + [Exe(argv), Numbered(Atoi(word[1..]), word[0] == '!')];
      argv := [];
      ret := ret + [Piece(line, readUid, writeUid)];
      line := [];
    } else if word != "" && word[0] == '>' {
      writeUid := Atoi(word[1..]);
      line := line + [Exe(argv), UserTo];
      argv := [];
    } else if word != "" && word[0] == '<' {
      readUid := Atoi(word[1..]);
    } else {
      argv := argv + [word];
    }
    next := if next <= |words| then next else |words|;
    b := UBuild(ret, line, argv, readUid, writeUid, quits);
  }

  /** How often the line says exit. */
  function UQuits(line: string): nat {
    UTurns(UBlank, Words(line), 0).quits
  }

  /** Splits a user's line into pieces, and says how often it asks to end the session. */
  method ParseCommand(command: string) returns (ret: seq<Piece>, quits: nat)
    ensures ret == UParse(command) && quits == UQuits(command)
  {
    hide Words, UTurn, UNextAt;
    var words := Words(command);
    var b := UBlank;
    var i := 0;
    while i < |words|
      invariant 0 <= i <= |words| && UTurns(b, words, i) == UTurns(UBlank, words, 0)
      decreases |words| - i
    {
      var next;
      b, next := ParseWord(words, i, b);
      NextLater(words, i);
      i := next;
    }
    ret := b.ret;
    var line := if b.argv != [] then b.line + [Exe(b.argv)] else b.line;
    if line != [] { ret := ret + [Piece(line, b.readUid, b.writeUid)]; }
    quits := b.quits;
  }

  lemma NextLater(ws: seq<string>, i: nat)
    requires i < |ws|
    ensures i < UNextAt(ws, i) <= |ws|
  {
  }

  predicate UPairs(line: seq<Command>) {
    && |line| % 2 == 0
    && forall i :: 0 <= i < |line| ==> (line[i].Exe? <==> i % 2 == 0) && !line[i].Numbered?
  }

  predicate UShaped(b: UBuild) {
    && UPairs(b.line)
    && forall k :: 0 <= k < |b.ret| ==> Alternating(b.ret[k].cmds) && EndsNumbered(b.ret[k].cmds)
  }

  lemma UAddPairs(line: seq<Command>, argv: seq<string>, c: Command)
    requires UPairs(line) && !c.Exe?
    ensures var r := line + [Exe(argv), c];
            (!c.Numbered? ==> UPairs(r)) && (c.Numbered? ==> Alternating(r) && EndsNumbered(r))
  {
  }

  lemma UTurnShaped(b: UBuild, ws: seq<string>, i: nat)
    requires i < |ws| && UShaped(b)
    ensures UShaped(UTurn(b, ws, i))
  {
    var w := ws[i];
    UAddPairs(b.line, b.argv, PipeTo);
    UAddPairs(b.line, b.argv, UserTo);
    UAddPairs(b.line, b.argv, FileTo(if i + 1 < |ws| then ws[i + 1] else ""));
    if IsNumbered(w) { UAddPairs(b.line, b.argv, Numbered(Atoi(w[1..]), w[0] == '!')); }
  }

  lemma {:induction false} UTurnsShaped(b: UBuild, ws: seq<string>, i: nat)
    requires i <= |ws| && UShaped(b)
    ensures UShaped(UTurns(b, ws, i))
    decreases |ws| - i
  {
    if i < |ws| {
      UTurnShaped(b, ws, i);
      UTurnsShaped(UTurn(b, ws, i), ws, UNextAt(ws, i));
    }
  }

  /** Every line whatsoever splits into pieces of the shape the executor relies on. */
  lemma UParseShape(line: string)
    ensures var ps := UParse(line);
            && (forall k :: 0 <= k < |ps| ==> Alternating(ps[k].cmds))
            && (forall k :: 0 <= k < |ps| - 1 ==> EndsNumbered(ps[k].cmds))
  {
    hide UTurns;
    var b := UTurns(UBlank, Words(line), 0);
    UTurnsShaped(UBlank, Words(line), 0);
    ULastShape(b.line, b.argv);
  }

  lemma ULastShape(line: seq<Command>, argv: seq<string>)
    requires UPairs(line)
    ensures argv != [] ==> Alternating(line + [Exe(argv)])
    ensures line != [] ==> Alternating(line)
  {
  }

  /** A word that is taken for an argument. */
  predicate UPlain(w: string) {
    && Plain(w) && !Names(w, '>') && !Names(w, '<') && !Speaks(w) && w != "who"
  }

  /** What can be written down. */
  predicate UWritable(c: Command) {
    && (c.Exe? ==> forall i :: 0 <= i < |c.argv| ==> UPlain(c.argv[i]))
    && (c.FileTo? ==> IsWord(c.name))
    && (c.Numbered? ==> IsInt(c.n))
  }

  /** Pieces a line can ask for: the shape of UParseShape, ids are ints, and a piece names a user to
      write to exactly if it has a `>n`. */
  predicate Asked(ps: seq<Piece>) {
    && (forall k :: 0 <= k < |ps| ==>
          && IsInt(ps[k].readUid) && IsInt(ps[k].writeUid)
          && Alternating(ps[k].cmds) && (ps[k].writeUid != 0 <==> UserTo in ps[k].cmds)
          && forall i :: 0 <= i < |ps[k].cmds| ==> UWritable(ps[k].cmds[i]))
    && (forall k :: 0 <= k < |ps| - 1 ==> EndsNumbered(ps[k].cmds))
    && (ps != [] ==> var p := ps[|ps| - 1].cmds; var c := p[|p| - 1]; c.Exe? ==> c.argv != [])
  }

  function UCommandWords(c: Command, write: int): seq<string> {
    if c.UserTo? then [">" + Itoa(write)] else CommandWords(c)
  }

  function UCmdsWords(cmds: seq<Command>, write: int): seq<string> {
    if cmds == [] then [] else UCmdsWords(cmds[..|cmds| - 1], write) + UCommandWords(cmds[|cmds| - 1], write)
  }

  function ReadWords(read: int): seq<string> {
    if read != 0 then ["<" + Itoa(read)] else []
  }

  function UPieceWords(p: Piece): seq<string> {
    ReadWords(p.readUid) + UCmdsWords(p.cmds, p.writeUid)
  }

  function ULineWords(ps: seq<Piece>): seq<string> {
    if ps == [] then [] else ULineWords(ps[..|ps| - 1]) + UPieceWords(ps[|ps| - 1])
  }

  /** A line asking for the pieces. */
  function UPrint(ps: seq<Piece>): string {
    Join(ULineWords(ps))
  }

  /** The latest id asked for, if any was. */
  function LatestRead(ps: seq<Piece>): int {
    if ps == [] then 0
    else if ps[|ps| - 1].readUid != 0 then ps[|ps| - 1].readUid else LatestRead(ps[..|ps| - 1])
  }

  function LatestWrite(ps: seq<Piece>): int {
    if ps == [] then 0
    else if ps[|ps| - 1].writeUid != 0 then ps[|ps| - 1].writeUid else LatestWrite(ps[..|ps| - 1])
  }

  /** What the line is taken to ask for: ids stay in force for the pieces behind. */
  function Carried(ps: seq<Piece>): (r: seq<Piece>)
    ensures |r| == |ps|
  {
    if ps == [] then []
    else Carried(ps[..|ps| - 1]) + [Piece(ps[|ps| - 1].cmds, LatestRead(ps), LatestWrite(ps))]
  }

  /** What the words of one command do. */
  function UFeed(b: UBuild, c: Command, write: int): UBuild {
    match c
    case Exe(argv) => b.(argv := b.argv + argv)
    case Numbered(n, err) => EndPiece(UAdd(b, c))
    case UserTo => UAdd(b.(writeUid := write), c)
    case _ => UAdd(b, c)
  }

  function UFeedAll(b: UBuild, cmds: seq<Command>, write: int): UBuild {
    if cmds == [] then b else UFeed(UFeedAll(b, cmds[..|cmds| - 1], write), cmds[|cmds| - 1], write)
  }

  lemma UArgTurn(b: UBuild, ws: seq<string>, i: nat)
    requires i < |ws| && UPlain(ws[i])
    ensures UTurn(b, ws, i) == b.(argv := b.argv + [ws[i]]) && UNextAt(ws, i) == i + 1
  {
    hide Atoi;
  }

  lemma {:induction false} UFeedArgs(b: UBuild, ws: seq<string>, i: nat, argv: seq<string>)
    requires From(ws, i, argv) && forall j :: 0 <= j < |argv| ==> UPlain(argv[j])
    ensures UTurns(b, ws, i) == UTurns(b.(argv := b.argv + argv), ws, i + |argv|)
    decreases |argv|
  {
    hide UTurn, UNextAt, UPlain;
    if argv == [] {
      assert b.argv + argv == b.argv;
    } else {
      assert argv == [argv[0]] + argv[1..];
      FromParts(ws, i, [argv[0]], argv[1..]);
      assert ws[i] == ws[i..i + |argv|][0];
      var b1 := b.(argv := b.argv + [argv[0]]);
      UArgTurn(b, ws, i);
      UFeedArgs(b1, ws, i + 1, argv[1..]);
      assert b1.argv + argv[1..] == b.argv + argv;
    }
  }

  lemma NumberWord(c: char, n: int)
    ensures var w := [c] + Itoa(n); |w| >= 2 && w[1..] == Itoa(n) && w[0] == c && (IsInt(n) ==> Atoi(w[1..]) == n)
    ensures !IsSpace(c) ==> IsWord([c] + Itoa(n))
  {
    AtoiItoa(n);
    ItoaWord(n);
    var w := [c] + Itoa(n);
    assert forall i :: 0 < i < |w| ==> w[i] == Itoa(n)[i - 1];
  }

  lemma UFeedConnector(b: UBuild, ws: seq<string>, i: nat, c: Command, write: int)
    requires UWritable(c) && !c.Exe? && IsInt(write) && From(ws, i, UCommandWords(c, write))
    ensures UTurns(b, ws, i) == UTurns(UFeed(b, c, write), ws, i + |UCommandWords(c, write)|)
  {
    hide Atoi, Itoa, EndPiece, UAdd;
    var w := UCommandWords(c, write);
    assert ws[i] == ws[i..i + |w|][0];
    match c
    case PipeTo =>
    case FileTo(name) => assert ws[i + 1] == ws[i..i + |w|][1];
    case UserTo =>
      NumberWord('>', write);
      assert w[0] == ['>'] + Itoa(write);
    case Numbered(n, err) =>
      NumberWord(if err then '!' else '|', n);
      assert w[0] == [if err then '!' else '|'] + Itoa(n);
      assert w[0] != "|" && IsNumbered(w[0]);
  }

  lemma UFeedCommand(b: UBuild, ws: seq<string>, i: nat, c: Command, write: int)
    requires UWritable(c) && IsInt(write) && From(ws, i, UCommandWords(c, write))
    ensures UTurns(b, ws, i) == UTurns(UFeed(b, c, write), ws, i + |UCommandWords(c, write)|)
  {
    if c.Exe? { UFeedArgs(b, ws, i, c.argv); } else { UFeedConnector(b, ws, i, c, write); }
  }

  lemma {:induction false} UFeedCmds(b: UBuild, ws: seq<string>, i: nat, cmds: seq<Command>, write: int)
    requires IsInt(write) && From(ws, i, UCmdsWords(cmds, write)) && forall j :: 0 <= j < |cmds| ==> UWritable(cmds[j])
    ensures UTurns(b, ws, i) == UTurns(UFeedAll(b, cmds, write), ws, i + |UCmdsWords(cmds, write)|)
    decreases |cmds|
  {
    hide UTurns, UFeed, UCommandWords, UWritable;
    if cmds != [] {
      var n := |cmds| - 1;
      FromParts(ws, i, UCmdsWords(cmds[..n], write), UCommandWords(cmds[n], write));
      UFeedCmds(b, ws, i, cmds[..n], write);
      UFeedCommand(UFeedAll(b, cmds[..n], write), ws, i + |UCmdsWords(cmds[..n], write)|, cmds[n], write);
    }
  }

  function UFeedPiece(b: UBuild, p: Piece): UBuild {
    UFeedAll(if p.readUid != 0 then b.(readUid := p.readUid) else b, p.cmds, p.writeUid)
  }

  lemma UFeedWords(b: UBuild, ws: seq<string>, i: nat, p: Piece)
    requires IsInt(p.readUid) && IsInt(p.writeUid)
    requires From(ws, i, UPieceWords(p)) && forall j :: 0 <= j < |p.cmds| ==> UWritable(p.cmds[j])
    ensures UTurns(b, ws, i) == UTurns(UFeedPiece(b, p), ws, i + |UPieceWords(p)|)
  {
    hide UFeedAll, UCmdsWords, UWritable, Atoi, Itoa;
    FromParts(ws, i, ReadWords(p.readUid), UCmdsWords(p.cmds, p.writeUid));
    if p.readUid == 0 {
      UFeedCmds(b, ws, i, p.cmds, p.writeUid);
    } else {
      var w := ['<'] + Itoa(p.readUid);
      NumberWord('<', p.readUid);
      assert ws[i] == ws[i..i + 1][0] == w;
      assert !IsNumbered(w) && UNextAt(ws, i) == i + 1;
      assert UTurn(b, ws, i) == b.(readUid := p.readUid);
      UFeedCmds(b.(readUid := p.readUid), ws, i + 1, p.cmds, p.writeUid);
    }
  }

  function UFeedLine(b: UBuild, ps: seq<Piece>): UBuild {
    if ps == [] then b else UFeedPiece(UFeedLine(b, ps[..|ps| - 1]), ps[|ps| - 1])
  }

  lemma {:induction false} UFeedPieces(b: UBuild, ws: seq<string>, i: nat, ps: seq<Piece>)
    requires From(ws, i, ULineWords(ps)) && forall k :: 0 <= k < |ps| ==> IsInt(ps[k].readUid) && IsInt(ps[k].writeUid)
    requires forall k, j :: 0 <= k < |ps| && 0 <= j < |ps[k].cmds| ==> UWritable(ps[k].cmds[j])
    ensures UTurns(b, ws, i) == UTurns(UFeedLine(b, ps), ws, i + |ULineWords(ps)|)
    decreases |ps|
  {
    hide UTurns, UFeedPiece, UPieceWords, UWritable;
    if ps != [] {
      var n := |ps| - 1;
      FromParts(ws, i, ULineWords(ps[..n]), UPieceWords(ps[n]));
      UFeedPieces(b, ws, i, ps[..n]);
      UFeedWords(UFeedLine(b, ps[..n]), ws, i + |ULineWords(ps[..n])|, ps[n]);
    }
  }

  /** The id in force for writing behind the commands cs. */
  function WriteIn(b: UBuild, cs: seq<Command>, write: int): int {
    if UserTo in cs then write else b.writeUid
  }

  /** The variables after the first j commands of a piece. */
  function UFed(b: UBuild, cmds: seq<Command>, j: nat, write: int): UBuild
    requires j <= |cmds|
  {
    if j % 2 == 0 then b.(line := cmds[..j], writeUid := WriteIn(b, cmds[..j], write))
    else b.(line := cmds[..j - 1], argv := if cmds[j - 1].Exe? then cmds[j - 1].argv else [],
            writeUid := WriteIn(b, cmds[..j], write))
  }

  lemma UFedNext(b: UBuild, cmds: seq<Command>, j: nat, write: int)
    requires b.line == [] && b.argv == [] && j < |cmds|
    requires cmds[j].Exe? <==> j % 2 == 0
    requires 0 < j ==> (cmds[j - 1].Exe? <==> (j - 1) % 2 == 0)
    requires !cmds[j].Numbered?
    ensures UFeed(UFed(b, cmds, j, write), cmds[j], write) == UFed(b, cmds, j + 1, write)
  {
    assert cmds[..j + 1] == cmds[..j] + [cmds[j]];
    if j % 2 == 0 {
      assert b.argv + cmds[j].argv == cmds[j].argv;
    } else {
      assert cmds[..j + 1] == cmds[..j - 1] + [Exe(cmds[j - 1].argv), cmds[j]];
    }
  }

  lemma {:induction false} UFedSoFar(b: UBuild, cmds: seq<Command>, j: nat, write: int)
    requires b.line == [] && b.argv == [] && Alternating(cmds) && j <= |cmds|
    requires j == |cmds| ==> !EndsNumbered(cmds)
    ensures UFeedAll(b, cmds[..j], write) == UFed(b, cmds, j, write)
  {
    hide UFeed, UFed;
    if j == 0 {
      UFedNone(b, cmds, write);
    } else {
      UFedSoFar(b, cmds, j - 1, write);
      assert cmds[..j][..j - 1] == cmds[..j - 1];
      assert cmds[j - 1].Exe? <==> (j - 1) % 2 == 0;
      UFedNext(b, cmds, j - 1, write);
    }
  }

  lemma UFedNone(b: UBuild, cmds: seq<Command>, write: int)
    requires b.line == []
    ensures UFed(b, cmds, 0, write) == b
  {
  }

  lemma UFedNumbered(b: UBuild, cmds: seq<Command>, write: int)
    requires b.line == [] && b.argv == [] && Alternating(cmds) && EndsNumbered(cmds)
    ensures var w := WriteIn(b, cmds, write);
            UFeedAll(b, cmds, write) == b.(ret := b.ret + [Piece(cmds, b.readUid, w)], writeUid := w)
  {
    var n := |cmds| - 1;
    UFedSoFar(b, cmds, n, write);
    assert cmds[n].Exe? <==> n % 2 == 0;
    assert cmds[n - 1].Exe?;
    assert cmds == cmds[..n] + [cmds[n]] == cmds[..n - 1] + [Exe(cmds[n - 1].argv), cmds[n]];
  }

  /** The variables between two pieces. */
  function Between(ps: seq<Piece>): UBuild {
    UBlank.(ret := Carried(ps), readUid := LatestRead(ps), writeUid := LatestWrite(ps))
  }

  predicate Written(p: Piece) {
    Alternating(p.cmds) && (p.writeUid != 0 <==> UserTo in p.cmds)
  }

  lemma {:induction false} UFedNumberedLine(ps: seq<Piece>)
    requires forall k :: 0 <= k < |ps| ==> Written(ps[k]) && EndsNumbered(ps[k].cmds)
    ensures UFeedLine(UBlank, ps) == Between(ps)
    decreases |ps|
  {
    hide Alternating, EndsNumbered, UFeedAll;
    if ps != [] {
      var n := |ps| - 1;
      UFedNumberedLine(ps[..n]);
      var b := Between(ps[..n]);
      UFedNumbered(if ps[n].readUid != 0 then b.(readUid := ps[n].readUid) else b, ps[n].cmds, ps[n].writeUid);
    }
  }

  lemma ULastPiece(b: UBuild, p: Piece)
    requires b.line == [] && b.argv == [] && Written(p)
    requires var c := p.cmds[|p.cmds| - 1]; c.Exe? ==> c.argv != []
    ensures UQueue(UFeedPiece(b, p)) == b.ret + [Piece(p.cmds, if p.readUid != 0 then p.readUid else b.readUid,
                                                      if p.writeUid != 0 then p.writeUid else b.writeUid)]
  {
    hide UFeedAll;
    var b1 := if p.readUid != 0 then b.(readUid := p.readUid) else b;
    if EndsNumbered(p.cmds) {
      UFedNumbered(b1, p.cmds, p.writeUid);
    } else {
      UFedSoFar(b1, p.cmds, |p.cmds|, p.writeUid);
      assert p.cmds[..|p.cmds|] == p.cmds;
      var n := |p.cmds| - 1;
      assert p.cmds[n].Exe? <==> n % 2 == 0;
      if p.cmds[n].Exe? { assert p.cmds == p.cmds[..n] + [Exe(p.cmds[n].argv)]; }
    }
  }

  lemma UFedLine(ps: seq<Piece>)
    requires Asked(ps)
    ensures UQueue(UFeedLine(UBlank, ps)) == Carried(ps)
  {
    hide UFeedPiece, Alternating, EndsNumbered, UWritable;
    if ps != [] {
      var n := |ps| - 1;
      UFedNumberedLine(ps[..n]);
      ULastPiece(UFeedLine(UBlank, ps[..n]), ps[n]);
    }
  }

  lemma UCommandIsWords(c: Command, write: int)
    requires UWritable(c)
    ensures forall i :: 0 <= i < |UCommandWords(c, write)| ==> IsWord(UCommandWords(c, write)[i])
  {
    if c.UserTo? {
      NumberWord('>', write);
      assert UCommandWords(c, write)[0] == ['>'] + Itoa(write);
    } else {
      CommandIsWords(c);
    }
  }

  lemma {:induction false} UCmdsAreWords(cmds: seq<Command>, write: int)
    requires forall j :: 0 <= j < |cmds| ==> UWritable(cmds[j])
    ensures forall i :: 0 <= i < |UCmdsWords(cmds, write)| ==> IsWord(UCmdsWords(cmds, write)[i])
    decreases |cmds|
  {
    hide UWritable, UCommandWords, IsWord;
    if cmds != [] {
      UCmdsAreWords(cmds[..|cmds| - 1], write);
      UCommandIsWords(cmds[|cmds| - 1], write);
    }
  }

  lemma {:induction false} ULineIsWords(ps: seq<Piece>)
    requires forall k, j :: 0 <= k < |ps| && 0 <= j < |ps[k].cmds| ==> UWritable(ps[k].cmds[j])
    ensures forall i :: 0 <= i < |ULineWords(ps)| ==> IsWord(ULineWords(ps)[i])
    decreases |ps|
  {
    hide UWritable, IsWord, UCmdsWords;
    if ps != [] {
      var p := ps[|ps| - 1];
      ULineIsWords(ps[..|ps| - 1]);
      UCmdsAreWords(p.cmds, p.writeUid);
      NumberWord('<', p.readUid);
      assert ReadWords(p.readUid) != [] ==> ReadWords(p.readUid)[0] == ['<'] + Itoa(p.readUid);
    }
  }

  lemma AskedWritable(ps: seq<Piece>)
    requires Asked(ps)
    ensures forall k :: 0 <= k < |ps| ==> IsInt(ps[k].readUid) && IsInt(ps[k].writeUid)
    ensures forall k, j :: 0 <= k < |ps| && 0 <= j < |ps[k].cmds| ==> UWritable(ps[k].cmds[j])
  {
    hide UWritable, Alternating;
  }

  lemma {:induction false} UFeedAllQuits(b: UBuild, cmds: seq<Command>, write: int)
    ensures UFeedAll(b, cmds, write).quits == b.quits
    decreases |cmds|
  {
    if cmds != [] { UFeedAllQuits(b, cmds[..|cmds| - 1], write); }
  }

  lemma {:induction false} UFeedLineQuits(b: UBuild, ps: seq<Piece>)
    ensures UFeedLine(b, ps).quits == b.quits
    decreases |ps|
  {
    if ps != [] {
      var n := |ps| - 1;
      UFeedLineQuits(b, ps[..n]);
      var b1 := UFeedLine(b, ps[..n]);
      UFeedAllQuits(if ps[n].readUid != 0 then b1.(readUid := ps[n].readUid) else b1, ps[n].cmds, ps[n].writeUid);
    }
  }

  /** Every line that asks for some pieces is split into exactly these pieces, but each with the
      latest ids named up to its end rather than with its own; and nothing in it ends the session. */
  lemma UParsePrint(ps: seq<Piece>)
    requires Asked(ps)
    ensures UParse(UPrint(ps)) == Carried(ps) && UQuits(UPrint(ps)) == 0
  {
    hide UTurns, UWritable, Asked, ULineWords, UFeedLine, Words, Join, UQueue, Carried;
    var ws := ULineWords(ps);
    AskedWritable(ps);
    ULineIsWords(ps);
    WordsJoin(ws);
    assert From(ws, 0, ws);
    UFeedPieces(UBlank, ws, 0, ps);
    UDone(UFeedLine(UBlank, ps), ws);
    UFeedLineQuits(UBlank, ps);
    UFedLine(ps);
  }

  lemma UDone(b: UBuild, ws: seq<string>)
    ensures UTurns(b, ws, |ws|) == b
  {
  }

  /** No piece without an id comes behind one that names an id of the same kind. */
  predicate NothingCarried(ps: seq<Piece>) {
    forall j, k :: 0 <= j < k < |ps| ==>
      && (ps[k].readUid == 0 ==> ps[j].readUid == 0)
      && (ps[k].writeUid == 0 ==> ps[j].writeUid == 0)
  }

  lemma {:induction false} LatestNone(ps: seq<Piece>)
    ensures LatestRead(ps) == 0 <==> forall j :: 0 <= j < |ps| ==> ps[j].readUid == 0
    ensures LatestWrite(ps) == 0 <==> forall j :: 0 <= j < |ps| ==> ps[j].writeUid == 0
    decreases |ps|
  {
    if ps != [] { LatestNone(ps[..|ps| - 1]); }
  }

  lemma {:induction false} CarriedSame(ps: seq<Piece>)
    ensures Carried(ps) == ps <==> NothingCarried(ps)
    decreases |ps|
  {
    if ps != [] {
      var n := |ps| - 1;
      var front := ps[..n];
      CarriedSame(front);
      LatestNone(front);
      assert ps == front + [ps[n]];
      assert Carried(ps)[..n] == Carried(front) && Carried(ps)[n] == Piece(ps[n].cmds, LatestRead(ps), LatestWrite(ps));
      NothingMore(ps);
    }
  }

  lemma NothingMore(ps: seq<Piece>)
    requires ps != []
    ensures var n := |ps| - 1;
            NothingCarried(ps) <==>
              && NothingCarried(ps[..n])
              && (ps[n].readUid == 0 ==> forall j :: 0 <= j < n ==> ps[..n][j].readUid == 0)
              && (ps[n].writeUid == 0 ==> forall j :: 0 <= j < n ==> ps[..n][j].writeUid == 0)
  {
    var n := |ps| - 1;
    assert forall j :: 0 <= j < n ==> ps[..n][j] == ps[j];
  }

  /** A line's pieces come out with the ids they ask for exactly when no piece without an id
      comes behind one that names an id of the same kind. */
  lemma UParseExact(ps: seq<Piece>)
    requires Asked(ps)
    ensures UParse(UPrint(ps)) == ps <==> NothingCarried(ps)
  {
    UParsePrint(ps);
    CarriedSame(ps);
  }

  const CatOne: Piece := Piece([Exe(["cat"]), Numbered(1, false)], 2, 0)
  const LsTwo: Piece := Piece([Exe(["ls"])], 0, 0)

  lemma SampleWords()
    ensures UPlain("cat") && UPlain("ls")
  {
  }

  lemma SampleAsked()
    ensures Asked([CatOne, LsTwo])
  {
    SampleWords();
    hide UPlain;
  }

  lemma SampleCarried()
    ensures Carried([CatOne, LsTwo])[1].readUid == 2 && !NothingCarried([CatOne, LsTwo])
  {
    var ps := [CatOne, LsTwo];
    assert ps[..1] == [CatOne];
    assert LatestRead([CatOne]) == 2;
  }

  /** `cat <2 |1 ls`: the second piece reads from user 2 as well. */
  lemma CarriedId()
    ensures var ps := [CatOne, LsTwo];
            Asked(ps) && UParse(UPrint(ps)) != ps && |UParse(UPrint(ps))| == 2 && UParse(UPrint(ps))[1].readUid == 2
  {
    hide *;
    SampleAsked();
    SampleCarried();
    UParsePrint([CatOne, LsTwo]);
    UParseExact([CatOne, LsTwo]);
  }
}
