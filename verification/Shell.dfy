/**
 The executor of the shell as a function on values: one Machine is the shell process together
 with the variables its command handler keeps between statements.  Class CmdHandler runs the
 same steps imperatively and is proved equal to these functions.
 */
module Shell {
  import opened Kernel
  import opened Pipes

  /** One element of a command line: a program with its arguments, or what connects it onwards. */
  datatype Command =
    | Exe(argv: seq<string>)
    | PipeTo
    | FileTo(name: string)
    | Numbered(n: int, err: bool)
    | UserTo

  /** The shape every piece of a parsed line has: programs at even positions, connectors at odd
      ones, and a numbered connector only at the very end. */
  predicate Alternating(cmds: seq<Command>) {
    && cmds != []
    && (forall i :: 0 <= i < |cmds| ==> (cmds[i].Exe? <==> i % 2 == 0))
    && (forall i :: 0 <= i < |cmds| && cmds[i].Numbered? ==> i == |cmds| - 1)
  }

  function StageCount(cmds: seq<Command>): nat {
    (|cmds| + 1) / 2
  }

  /** The arguments of the program of stage j. */
  function ArgvOf(cmds: seq<Command>, j: nat): seq<string> {
    if 2 * j < |cmds| && cmds[2 * j].Exe? then cmds[2 * j].argv else []
  }

  datatype Link = NoLink | Via(c: Command)

  /** The connector behind the program of stage j, if there is one. */
  function LinkOf(cmds: seq<Command>, j: nat): Link {
    if 2 * j + 1 < |cmds| then Via(cmds[2 * j + 1]) else NoLink
  }

  const SIZE: nat := 1024

  datatype Shell = Shell(ring: seq<Ends>, head: nat, curr: Ends, prev: Ends, eol: Ends,
                         w0: nat, w1: nat)

  datatype Machine = Machine(k: Proc, s: Shell)

  function Slot(head: nat, n: int): (r: nat)
    ensures r < SIZE
  {
    (head + n) % SIZE
  }

  function NextHead(head: nat): (r: nat)
    ensures r < SIZE
  {
    (head + 1) % SIZE
  }

  function NewShell(): Shell {
    Shell(seq(SIZE, _ => NoEnds), 0, NoEnds, NoEnds, NoEnds, 0, 0)
  }

  /** The numbers pipe2 is going to return. */
  function NewEnds(t: Table, id: nat): Ends {
    var r := LowestFree(t);
    Ends(r, LowestFree(t[r := Entry(ReadEnd(id), true)]))
  }

  function MakePipe(k: Proc): Proc {
    Do(k, Pipe2(k.pipes))
  }

  /** eol.create; next; currPipe = front. */
  function Begin(m: Machine): Machine
    requires |m.s.ring| == SIZE
  {
    var head := NextHead(m.s.head);
    Machine(MakePipe(m.k),
            m.s.(eol := NewEnds(m.k.fds, m.k.pipes), head := head, curr := m.s.ring[head]))
  }

  /** prevPipe.closePipe; prevPipe = currPipe. */
  function Shift(m: Machine): (r: Machine)
    ensures r.s.ring == m.s.ring
  {
    Machine(DoAll(m.k, CloseOps(m.s.prev)), m.s.(prev := m.s.curr))
  }

  /** nextCommand.createPipe(currPipe). */
  function Connect(m: Machine, link: Link): (r: Machine)
    requires |m.s.ring| == SIZE
    ensures |r.s.ring| == SIZE
  {
    match link
    case Via(PipeTo) => Machine(MakePipe(m.k), m.s.(curr := NewEnds(m.k.fds, m.k.pipes)))
    case Via(FileTo(name)) =>
      Machine(Do(m.k, Kernel.Open(name)), m.s.(curr := Ends(-1, LowestFree(m.k.fds))))
    case Via(Numbered(n, _)) =>
      var slot := Slot(m.s.head, n);
      if m.s.ring[slot] == NoEnds then
        var p := NewEnds(m.k.fds, m.k.pipes);
        Machine(MakePipe(m.k), m.s.(curr := p, ring := m.s.ring[slot := p]))
      else
        Machine(m.k, m.s.(curr := m.s.ring[slot]))
    case _ => m
  }

  predicate PipeError(link: Link) {
    link.Via? && link.c.Numbered? && link.c.err
  }

  /** fork; wait for the process forked two stages ago; shift the window. */
  function Spawn(m: Machine, err: bool, argv: seq<string>): (r: Machine)
    ensures r.s.ring == m.s.ring
  {
    var k1 := Do(m.k, Fork(ChildProgram(m.s.prev, m.s.curr, err, argv)));
    var k2 := if m.s.w0 != 0 then Do(k1, Wait(m.s.w0)) else k1;
    Machine(k2, m.s.(w0 := m.s.w1, w1 := |k1.kids|))
  }

  function Stage(m: Machine, link: Link, argv: seq<string>): Machine
    requires |m.s.ring| == SIZE
  {
    Spawn(Connect(Shift(m), link), PipeError(link), argv)
  }

  /** The state after the first j stages of a piece. */
  function AfterStages(m: Machine, cmds: seq<Command>, j: nat): (r: Machine)
    requires |m.s.ring| == SIZE
    ensures |r.s.ring| == SIZE
  {
    if j == 0 then m else Stage(AfterStages(m, cmds, j - 1), LinkOf(cmds, j - 1), ArgvOf(cmds, j - 1))
  }

  function DrainOps(eol: Ends): seq<Op> {
    [Close(eol.wr), Drain(eol.rd), Close(eol.rd)]
  }

  /** What follows the loop over the stages. */
  function Finish(m: Machine, numbered: bool): Machine {
    var k1 := DoAll(m.k, CloseOps(m.s.prev));
    var s1 := m.s.(prev := NoEnds);
    if !numbered then
      Machine(DoAll(Do(k1, Wait(s1.w1)), CloseOps(s1.curr)), s1.(curr := NoEnds))
    else
      Machine(DoAll(k1, DrainOps(s1.eol)), s1)
  }

  /** The word exit: eol, prevPipe and currPipe are closed, whatever they name by now. */
  function CloseVariables(m: Machine): (r: Machine)
    ensures r.s.ring == m.s.ring
  {
    Machine(DoAll(DoAll(DoAll(m.k, CloseOps(m.s.eol)), CloseOps(m.s.prev)), CloseOps(m.s.curr)),
            m.s.(eol := NoEnds, prev := NoEnds, curr := NoEnds))
  }

  predicate EndsNumbered(cmds: seq<Command>) {
    cmds != [] && cmds[|cmds| - 1].Numbered?
  }

  function RunPiece(m: Machine, cmds: seq<Command>): (r: Machine)
    requires |m.s.ring| == SIZE
    ensures |r.s.ring| == SIZE
  {
    Finish(AfterStages(Begin(m), cmds, StageCount(cmds)), EndsNumbered(cmds))
  }

  function RunFrom(m: Machine, ps: seq<seq<Command>>): (r: Machine)
    requires |m.s.ring| == SIZE
    ensures |r.s.ring| == SIZE
    decreases |ps|
  {
    if ps == [] then m else RunPiece(RunFrom(m, ps[..|ps| - 1]), ps[|ps| - 1])
  }

  const FreshProc := Proc(map[0 := Entry(Other(0), false), 1 := Entry(Other(1), false),
                              2 := Entry(Other(2), false)], 0, [], [])

  /** The shell from its start, over all pieces of all lines typed so far. */
  function Run(ps: seq<seq<Command>>): (r: Machine)
    ensures |r.s.ring| == SIZE
  {
    RunFrom(Machine(FreshProc, NewShell()), ps)
  }
}
