/**
 The shell's objects and their methods, in the form of the program: descriptor operations on the
 process, pipe variables, the ring of delayed pipes, and the command handler whose runShell
 executes a line.  Each method is proved to do what the functions of module Shell say.
 */
module CmdHandling {
  import opened Kernel
  import opened Pipes
  import opened Shell
  import opened Text
  import opened Parser

  /** The process the shell runs in. */
  class Process {
    var k: Proc

    constructor ()
      ensures k == FreshProc
    {
      k := FreshProc;
    }

    method Issue(op: Op)
      modifies this
      ensures k == Do(old(k), op)
    {
      k := Do(k, op);
    }

    method MakePipe2() returns (p: Ends)
      modifies this
      ensures k == MakePipe(old(k)) && p == NewEnds(old(k.fds), old(k.pipes))
    {
      p := NewEnds(k.fds, k.pipes);
      Issue(Pipe2(k.pipes));
    }

    method OpenFile(name: string) returns (fd: int)
      modifies this
      ensures k == Do(old(k), Kernel.Open(name)) && fd == LowestFree(old(k.fds))
    {
      fd := LowestFree(k.fds);
      Issue(Kernel.Open(name));
    }

    method ForkChild(prog: seq<Op>) returns (pid: nat)
      modifies this
      ensures k == Do(old(k), Fork(prog)) && pid == |k.kids|
    {
      Issue(Fork(prog));
      pid := |k.kids|;
    }
  }

  /** The modes of opening a file. */
  const WRITE := 1
  const READ := 2
  const APPEND := 3

  /** A pipe variable: two descriptor numbers. */
  class Pipe {
    var fd: Ends

    constructor ()
      ensures fd == NoEnds
    {
      fd := NoEnds;
    }

    method Create(os: Process)
      modifies this, os
      ensures os.k == MakePipe(old(os.k)) && fd == NewEnds(old(os.k.fds), old(os.k.pipes))
    {
      fd := os.MakePipe2();
    }

    /** Opens a file to read or to write; any other mode does nothing. */
    method OpenFile(os: Process, name: string, mode: int)
      modifies this, os
      ensures mode in {WRITE, APPEND} ==>
                os.k == Do(old(os.k), Kernel.Open(name)) && fd == Ends(-1, LowestFree(old(os.k.fds)))
      ensures mode == READ ==>
                os.k == Do(old(os.k), Kernel.Open(name)) && fd == Ends(LowestFree(old(os.k.fds)), -1)
      ensures mode !in {WRITE, READ, APPEND} ==> os.k == old(os.k) && fd == old(fd)
    {
      if mode == WRITE || mode == APPEND {
        var out := os.OpenFile(name);
        fd := Ends(-1, out);
      } else if mode == READ {
        var inFd := os.OpenFile(name);
        fd := Ends(inFd, -1);
      }
    }

    method Clear()
      modifies this
      ensures fd == NoEnds
    {
      fd := NoEnds;
    }

    method ClosePipe(os: Process)
      modifies this, os
      ensures fd == NoEnds && os.k == DoAll(old(os.k), CloseOps(old(fd)))
    {
      ghost var rest := if fd.wr != -1 then [Close(fd.wr)] else [];
      if fd.rd != -1 {
        os.Issue(Close(fd.rd));
        assert CloseOps(fd)[1..] == rest;
        assert DoAll(old(os.k), CloseOps(fd)) == DoAll(os.k, rest);
      }
      if fd.wr != -1 {
        assert rest[1..] == [];
        assert DoAll(os.k, rest) == DoAll(Do(os.k, Close(fd.wr)), []);
        os.Issue(Close(fd.wr));
      }
      Clear();
    }

    /** In a forked stage: the read end becomes standard input. */
    method Read(os: Process)
      modifies this, os
      ensures fd == NoEnds && os.k.fds == ApplyAll(old(os.k.fds), ReadOps(old(fd)))
    {
      os.Issue(Dup2(fd.rd, 0));
      ghost var p, t := fd, os.k.fds;
      ghost var k1 := os.k;
      ClosePipe(os);
      DoAllTable(k1, CloseOps(p));
      assert ReadOps(p)[1..] == CloseOps(p);
    }

    /** In a forked stage: the write end becomes standard output, and standard error if asked. */
    method Write(os: Process, writeErr: bool)
      modifies this, os
      ensures fd == NoEnds && os.k.fds == ApplyAll(old(os.k.fds), WriteOps(old(fd), writeErr))
    {
      os.Issue(Dup2(fd.wr, 1));
      if writeErr { os.Issue(Dup2(fd.wr, 2)); }
      ghost var p := fd;
      ghost var k1 := os.k;
      ClosePipe(os);
      DoAllTable(k1, CloseOps(p));
      WriteTable(old(os.k.fds), p, writeErr);
      CloseTable(k1.fds, p);
    }

    method ReadEOF(os: Process)
      modifies os
      ensures os.k == DoAll(old(os.k), DrainOps(fd))
    {
      ghost var ops := DrainOps(fd);
      assert ops[1..] == [ops[1], ops[2]] && [ops[1], ops[2]][1..] == [ops[2]] && [ops[2]][1..] == [];
      os.Issue(Close(fd.wr));
      assert DoAll(old(os.k), ops) == DoAll(os.k, [ops[1], ops[2]]);
      ghost var k1 := os.k;
      os.Issue(Drain(fd.rd));
      assert DoAll(k1, [ops[1], ops[2]]) == DoAll(os.k, [ops[2]]);
      ghost var k2 := os.k;
      os.Issue(Close(fd.rd));
      assert DoAll(k2, [ops[2]]) == DoAll(os.k, []);
    }
  }

  lemma {:induction false} DoAllTable(k: Proc, ops: seq<Op>)
    ensures DoAll(k, ops).fds == ApplyAll(k.fds, ops)
    decreases |ops|
  {
    if ops != [] { DoAllTable(Do(k, ops[0]), ops[1..]); }
  }

  /** The redirections of a forked stage, executed on its copy of the shell's process: they leave
      exactly the descriptors ExecTable states. */
  method StageRedirects(os: Process, prevPipe: Pipe, currPipe: Pipe, pipeErr: bool, argv: seq<string>)
    requires prevPipe != currPipe
    requires StdOpen(os.k.fds) && Above(prevPipe.fd) && Above(currPipe.fd)
    modifies os, prevPipe, currPipe
    ensures os.k.fds == ExecTable(old(os.k.fds), old(prevPipe.fd), old(currPipe.fd), pipeErr)
  {
    ghost var t, p, c := os.k.fds, prevPipe.fd, currPipe.fd;
    prevPipe.Read(os);
    currPipe.Write(os, pipeErr);
    os.Issue(Exec(argv));
    ReadTable(t, p);
    WriteTable(ApplyAll(t, ReadOps(p)), c, pipeErr);
    ProgramTable(t, p, c, pipeErr, argv);
    ChildView(t, p, c, pipeErr, argv);
  }

  /** npshell::circular_buffer. */
  class CircularBuffer<T> {
    var head: nat
    const buffer: array<T>

    constructor (empty: T)
      ensures fresh(buffer) && buffer.Length == SIZE && head == 0
      ensures forall i :: 0 <= i < SIZE ==> buffer[i] == empty
    {
      head := 0;
      buffer := new T[SIZE](_ => empty);
    }

    method Set(n: int, item: T)
      requires buffer.Length == SIZE
      modifies buffer
      ensures buffer[..] == old(buffer[..])[Slot(head, n) := item]
    {
      buffer[Slot(head, n)] := item;
    }

    function Get(n: int): (item: T)
      requires buffer.Length == SIZE
      reads this, buffer
      ensures item == buffer[..][Slot(head, n)]
    {
      buffer[Slot(head, n)]
    }

    method Next()
      modifies this
      ensures head == NextHead(old(head))
    {
      head := NextHead(head);
    }
  }

  function CloseTimes(m: Machine, n: nat): (r: Machine)
    ensures r.s.ring == m.s.ring
  {
    if n == 0 then m else CloseVariables(CloseTimes(m, n - 1))
  }

  /** The body of parseCommand's loop, for the word at position i. */
  method ParseWord(words: seq<string>, i: nat, ret0: seq<seq<Command>>, line0: seq<Command>, argv0: seq<string>,
                   ghost quits: nat)
    returns (ret: seq<seq<Command>>, npCommandLine: seq<Command>, argv: seq<string>, next: nat, quit: bool)
    requires i < |words|
    ensures Build(ret, npCommandLine, argv, if quit then quits + 1 else quits)
         == Turn(Build(ret0, line0, argv0, quits), words, i)
    ensures i < next <= |words| && next == NextAt(words, i) && quit == (words[i] == "exit")
  {
    ret, npCommandLine, argv, next, quit := ret0, line0, argv0, i + 1, false;
    var word := words[i];
    if word == "exit" {
      quit := true;
    } else if word == "printenv" {
      next := i + 2;
    } else if word == "setenv" {
      next := i + 3;
    } else if word == "|" {
      npCommandLine := npCommandLine + [Exe(argv), PipeTo];
      argv := [];
    } else if word == ">" {
      var fileName := if i + 1 < |words| then words[i + 1] else "";
      npCommandLine := npCommandLine + [Exe(argv), FileTo(fileName)];
      argv := [];
      next := i + 2;
    } else if word != "" && (word[0] == '|' || word[0] == '!') {
      var number := Atoi(word[1..]);
      npCommandLine := npCommandLine + [Exe(argv), Numbered(number, word[0] == '!')];
      argv := [];
      ret := ret + [npCommandLine];
      npCommandLine := [];
    } else {
      argv := argv + [word];
    }
    next := if next <= |words| then next else |words|;
  }

  /** After the loop: what is left becomes the last piece. */
  method FinishLine(ret0: seq<seq<Command>>, line0: seq<Command>, argv: seq<string>, ghost quits: nat)
    returns (ret: seq<seq<Command>>)
    ensures ret == Queue(Build(ret0, line0, argv, quits))
  {
    ret := ret0;
    var npCommandLine := line0;
    if argv != [] { npCommandLine := npCommandLine + [Exe(argv)]; }
    if npCommandLine != [] { ret := ret + [npCommandLine]; }
  }

  class CmdHandler {
    const os: Process
    const numberPipeList: CircularBuffer<Ends>
    const currPipe: Pipe
    const prevPipe: Pipe
    const eol: Pipe
    const pipelineProcessor: array<nat>
    var running: bool

    ghost predicate Valid()
      reads this
    {
      && currPipe != prevPipe && currPipe != eol && prevPipe != eol
      && numberPipeList.buffer.Length == SIZE && pipelineProcessor.Length == 2
    }

    ghost function Parts(): set<object>
      reads this
    {
      {this, os, numberPipeList, numberPipeList.buffer, currPipe, prevPipe, eol, pipelineProcessor}
    }

    function State(): (m: Machine)
      requires Valid()
      reads this, os, numberPipeList, numberPipeList.buffer, currPipe, prevPipe, eol, pipelineProcessor
      ensures |m.s.ring| == SIZE
    {
      Machine(os.k, Shell(numberPipeList.buffer[..], numberPipeList.head, currPipe.fd, prevPipe.fd, eol.fd,
                          pipelineProcessor[0], pipelineProcessor[1]))
    }

    constructor ()
      ensures Valid() && fresh(Parts()) && running
      ensures State() == Machine(FreshProc, NewShell())
    {
      os := new Process();
      numberPipeList := new CircularBuffer(NoEnds);
      currPipe := new Pipe();
      prevPipe := new Pipe();
      eol := new Pipe();
      pipelineProcessor := new nat[2](_ => 0);
      running := true;
      new;
      assert numberPipeList.buffer[..] == NewShell().ring;
    }

    /** createPipe of the command behind a program. */
    method CreatePipe(c: Command)
      requires Valid() && !c.Exe?
      modifies Parts() - {this}
      ensures Valid() && State() == Connect(old(State()), Via(c))
    {
      match c
      case PipeTo => currPipe.Create(os);
      case FileTo(name) => currPipe.OpenFile(os, name, WRITE);
      case Numbered(n, _) =>
        currPipe.fd := numberPipeList.Get(n);
        if currPipe.fd == NoEnds {
          currPipe.Create(os);
          numberPipeList.Set(n, currPipe.fd);
        }
      case _ =>
    }

    /** fork, and the wait for the program two stages back. */
    method Launch(pipeErr: bool, argv: seq<string>)
      requires Valid()
      modifies Parts() - {this}
      ensures Valid() && State() == Spawn(old(State()), pipeErr, argv)
    {
      var pid := os.ForkChild(ChildProgram(prevPipe.fd, currPipe.fd, pipeErr, argv));
      if pipelineProcessor[0] != 0 { os.Issue(Wait(pipelineProcessor[0])); }
      pipelineProcessor[0] := pipelineProcessor[1];
      pipelineProcessor[1] := pid;
    }

    /** eol.create; next; currPipe = front. */
    method StartPiece()
      requires Valid()
      modifies Parts() - {this}
      ensures Valid() && State() == Begin(old(State()))
    {
      eol.Create(os);
      numberPipeList.Next();
      currPipe.fd := numberPipeList.Get(0);
      assert Slot(numberPipeList.head, 0) == numberPipeList.head;
    }

    /** The body of the loop over the commands, for a program at position i. */
    method RunStage(cmds: seq<Command>, i: nat)
      requires Valid() && Alternating(cmds) && i < |cmds| && cmds[i].Exe?
      modifies Parts() - {this}
      ensures Valid() && State() == Stage(old(State()), LinkOf(cmds, i / 2), cmds[i].argv)
    {
      prevPipe.ClosePipe(os);
      prevPipe.fd := currPipe.fd;
      ghost var shifted := State();
      assert shifted == Shift(old(State()));
      var pipeErr := false;
      if i != |cmds| - 1 {
        assert cmds[i + 1].Exe? <==> (i + 1) % 2 == 0;
        CreatePipe(cmds[i + 1]);
        pipeErr := cmds[i + 1].Numbered? && cmds[i + 1].err;
      }
      assert LinkOf(cmds, i / 2) == if i != |cmds| - 1 then Via(cmds[i + 1]) else NoLink;
      assert State() == Connect(shifted, LinkOf(cmds, i / 2)) && pipeErr == PipeError(LinkOf(cmds, i / 2));
      Launch(pipeErr, cmds[i].argv);
    }

    /** What follows the loop. */
    method EndPiece(numbered: bool)
      requires Valid()
      modifies Parts() - {this}
      ensures Valid() && State() == Finish(old(State()), numbered)
    {
      prevPipe.ClosePipe(os);
      if !numbered {
        os.Issue(Wait(pipelineProcessor[1]));
        currPipe.ClosePipe(os);
      } else {
        eol.ReadEOF(os);
      }
    }

    /** One piece of a line.  The shape of cmds is what every parsed piece has. */
    method RunCommands(cmds: seq<Command>)
      requires Valid() && Alternating(cmds)
      modifies Parts() - {this}
      ensures Valid() && State() == RunPiece(old(State()), cmds)
    {
      hide Begin, Stage, Finish, LinkOf;
      StartPiece();
      ghost var begun := State();
      var i := 0;
      while i < |cmds|
        invariant 0 <= i <= |cmds| && Valid()
        invariant State() == AfterStages(begun, cmds, (i + 1) / 2)
      {
        if cmds[i].Exe? { RunStage(cmds, i); }
        i := i + 1;
      }
      EndPiece(cmds[|cmds| - 1].Numbered?);
    }

    /** Closing the three pipe variables, on the word exit. */
    method CloseAll()
      requires Valid()
      modifies Parts() - {this}
      ensures Valid() && State() == CloseVariables(old(State()))
    {
      eol.ClosePipe(os);
      prevPipe.ClosePipe(os);
      currPipe.ClosePipe(os);
    }

    /** Splits a line into its pieces; the word exit ends the shell. */
    method ParseCommand(command: string) returns (ret: seq<seq<Command>>)
      requires Valid()
      modifies Parts()
      ensures Valid() && ret == Parse(command)
      ensures State() == CloseTimes(old(State()), Quits(command)) && running == (old(running) && Quits(command) == 0)
    {
      hide Words, Turn, NextAt, CloseVariables, Queue;
      ret := [];
      var npCommandLine: seq<Command> := [];
      var argv: seq<string> := [];
      var words := Words(command);
      ghost var quits: nat := 0;
      var i := 0;
      while i < |words|
        invariant 0 <= i <= |words| && Valid()
        invariant Turns(Build(ret, npCommandLine, argv, quits), words, i) == Turns(Blank, words, 0)
        invariant State() == CloseTimes(old(State()), quits) && running == (old(running) && quits == 0)
      {
        var quit;
        ghost var was := i;
        ghost var b := Build(ret, npCommandLine, argv, quits);
        ret, npCommandLine, argv, i, quit := ParseWord(words, i, ret, npCommandLine, argv, quits);
        if quit {
          running := false;
          CloseAll();
          quits := quits + 1;
        }
        assert Turns(b, words, was) == Turns(Turn(b, words, was), words, i);
      }
      ret := FinishLine(ret, npCommandLine, argv, quits);
    }

    /** Reads one line and executes its pieces in order. */
    method RunShell(line: string)
      requires Valid()
      modifies Parts()
      ensures Valid()
      ensures State() == RunFrom(CloseTimes(old(State()), Quits(line)), Parse(line))
      ensures running == (old(running) && Quits(line) == 0)
    {
      hide RunPiece, Parse, Quits, CloseTimes;
      var commands := ParseCommand(line);
      ParseShape(line);
      ghost var start := State();
      var n := 0;
      while n < |commands|
        invariant 0 <= n <= |commands| && Valid()
        invariant State() == RunFrom(start, commands[..n]) && running == (old(running) && Quits(line) == 0)
      {
        RunCommands(commands[n]);
        assert commands[..n + 1][..n] == commands[..n];
        n := n + 1;
      }
      assert commands[..n] == commands;
    }
  }
}
