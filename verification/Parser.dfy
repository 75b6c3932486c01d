/** Splitting a line into numbered pieces, and printing pieces back as a line. */
module Parser {
  import opened Shell
  import opened PieceRuns
  import opened Text

  /** The variables of the parsing loop: finished pieces, the piece being built, the arguments
      collected for its next program, and how many times `exit` was read. */
  datatype Build = Build(ret: seq<seq<Command>>, line: seq<Command>, argv: seq<string>, quits: nat)

  const Blank := Build([], [], [], 0)

  /** addCommand(ExeCommand(argv)), addCommand(c); argv has been moved out of. */
  function Add(b: Build, c: Command): Build {
    b.(line := b.line + [Exe(b.argv), c], argv := [])
  }

  predicate IsNumbered(w: string) {
    w != [] && (w[0] == '|' || w[0] == '!')
  }

  /** The number of further words a word consumes: a variable's name, its name and value, or a
      file name. */
  function Skips(w: string): nat {
    if w == "setenv" then 2 else if w == "printenv" || w == ">" then 1 else 0
  }

  function NextAt(ws: seq<string>, i: nat): nat
    requires i < |ws|
  {
    var n := i + 1 + Skips(ws[i]);
    if n <= |ws| then n else |ws|
  }

  /** One turn of the loop. */
  function Turn(b: Build, ws: seq<string>, i: nat): Build
    requires i < |ws|
  {
    var w := ws[i];
    if w == "exit" then b.(quits := b.quits + 1)
    else if w == "printenv" || w == "setenv" then b
    else if w == "|" then Add(b, PipeTo)
    else if w == ">" then Add(b, FileTo(if i + 1 < |ws| then ws[i + 1] else ""))
    else if IsNumbered(w) then
      var b1 := Add(b, Numbered(Atoi(w[1..]), w[0] == '!'));
      b1.(ret := b1.ret + [b1.line], line := [])
    else b.(argv := b.argv + [w])
  }

  function Turns(b: Build, ws: seq<string>, i: nat): Build
    requires i <= |ws|
    decreases |ws| - i
  {
    if i == |ws| then b else Turns(Turn(b, ws, i), ws, NextAt(ws, i))
  }

  /** The pieces the loop leaves in the queue. */
  function Queue(b: Build): seq<seq<Command>> {
    var line := if b.argv != [] then b.line + [Exe(b.argv)] else b.line;
    if line != [] then b.ret + [line] else b.ret
  }

  function Parse(line: string): seq<seq<Command>> {
    Queue(Turns(Blank, Words(line), 0))
  }

  function Quits(line: string): nat {
    Turns(Blank, Words(line), 0).quits
  }

  /** A piece still being built: whole program-connector pairs, none of them numbered. */
  predicate Pairs(line: seq<Command>) {
    && |line| % 2 == 0
    && forall i :: 0 <= i < |line| ==> (line[i].Exe? <==> i % 2 == 0) && !line[i].Numbered? && !line[i].UserTo?
  }

  predicate Shaped(b: Build) {
    && Pairs(b.line)
    && forall k :: 0 <= k < |b.ret| ==> Alternating(b.ret[k]) && NoUser(b.ret[k]) && EndsNumbered(b.ret[k])
  }

  lemma AddPairs(line: seq<Command>, argv: seq<string>, c: Command)
    requires Pairs(line) && !c.Exe? && !c.UserTo?
    ensures var r := line + [Exe(argv), c];
            (!c.Numbered? ==> Pairs(r)) && (c.Numbered? ==> Alternating(r) && NoUser(r) && EndsNumbered(r))
  {
  }

  lemma TurnShaped(b: Build, ws: seq<string>, i: nat)
    requires i < |ws| && Shaped(b)
    ensures Shaped(Turn(b, ws, i))
  {
    var w := ws[i];
    AddPairs(b.line, b.argv, PipeTo);
    AddPairs(b.line, b.argv, FileTo(if i + 1 < |ws| then ws[i + 1] else ""));
    if IsNumbered(w) { AddPairs(b.line, b.argv, Numbered(Atoi(w[1..]), w[0] == '!')); }
  }

  lemma {:induction false} TurnsShaped(b: Build, ws: seq<string>, i: nat)
    requires i <= |ws| && Shaped(b)
    ensures Shaped(Turns(b, ws, i))
    decreases |ws| - i
  {
    if i < |ws| {
      TurnShaped(b, ws, i);
      TurnsShaped(Turn(b, ws, i), ws, NextAt(ws, i));
    }
  }

  /** Every line whatsoever: in each of its pieces programs and connectors alternate and only the
      last element can be a numbered connector, and every piece but the last ends in one. */
  lemma ParseShape(line: string)
    ensures var ps := Parse(line);
            && (forall k :: 0 <= k < |ps| ==> Alternating(ps[k]) && NoUser(ps[k]))
            && (forall k :: 0 <= k < |ps| - 1 ==> EndsNumbered(ps[k]))
  {
    var b := Turns(Blank, Words(line), 0);
    TurnsShaped(Blank, Words(line), 0);
    var last := if b.argv != [] then b.line + [Exe(b.argv)] else b.line;
    if last != [] { LastShape(b.line, b.argv); }
  }

  lemma LastShape(line: seq<Command>, argv: seq<string>)
    requires Pairs(line)
    ensures argv != [] ==> Alternating(line + [Exe(argv)]) && NoUser(line + [Exe(argv)])
    ensures line != [] ==> Alternating(line) && NoUser(line)
  {
  }

  /** A word that the loop takes for an argument. */
  predicate Plain(w: string) {
    && IsWord(w) && !IsNumbered(w)
    && w != ">" && w != "exit" && w != "printenv" && w != "setenv"
  }

  function ConnectorWords(c: Command): seq<string> {
    match c
    case PipeTo => ["|"]
    case FileTo(name) => [">", name]
    case Numbered(n, err) => [(if err then "!" else "|") + Itoa(n)]
    case _ => []
  }

  function CommandWords(c: Command): seq<string> {
    if c.Exe? then c.argv else ConnectorWords(c)
  }

  function PieceWords(cmds: seq<Command>): seq<string> {
    if cmds == [] then [] else PieceWords(cmds[..|cmds| - 1]) + CommandWords(cmds[|cmds| - 1])
  }

  function LineWords(ps: seq<seq<Command>>): seq<string> {
    if ps == [] then [] else LineWords(ps[..|ps| - 1]) + PieceWords(ps[|ps| - 1])
  }

  function Print(ps: seq<seq<Command>>): string {
    Join(LineWords(ps))
  }

  /** Commands that can be written down: plain arguments, file names that are words, delays that are
      ints. */
  predicate Writable(c: Command) {
    && !c.UserTo?
    && (c.Exe? ==> forall i :: 0 <= i < |c.argv| ==> Plain(c.argv[i]))
    && (c.FileTo? ==> IsWord(c.name))
    && (c.Numbered? ==> IsInt(c.n))
  }

  /** Pieces a line can hold: the shape of ParseShape, and a program at the very end has at
      least one argument. */
  predicate Printable(ps: seq<seq<Command>>) {
    && (forall k :: 0 <= k < |ps| ==>
          Alternating(ps[k]) && NoUser(ps[k]) && forall i :: 0 <= i < |ps[k]| ==> Writable(ps[k][i]))
    && (forall k :: 0 <= k < |ps| - 1 ==> EndsNumbered(ps[k]))
    && (ps != [] ==> var p := ps[|ps| - 1]; var c := p[|p| - 1]; c.Exe? ==> c.argv != [])
  }
}
