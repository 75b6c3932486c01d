/**
 The part of a Unix kernel the shell relies on: per-process descriptor tables with
 lowest-free allocation, pipe ends with identities, sockets, close-on-exec flags, and the
 operations a single-threaded process issues.  Processes that are running concurrently
 are the subject of module Schedule.
 */
module Kernel {

  /** What a descriptor refers to. */
  datatype Obj = Other(tag: int) | ReadEnd(id: nat) | WriteEnd(id: nat) | File(name: string) | Sock(owner: int)

  datatype Entry = Entry(obj: Obj, cloexec: bool)

  type Table = map<int, Entry>

  datatype Op =
    | Pipe2(id: nat)
    | Open(name: string)
    | OpenSock(owner: int)
    | Dup(from: int)
    | Dup2(from: int, to: int)
    | Close(fd: int)
    | Exec(argv: seq<string>)
    | Fork(prog: seq<Op>)
    | Wait(pid: nat)
    | Drain(fd: int)

  function From(t: Table, n: nat): set<int> {
    set k | k in t && n <= k
  }

  /** The least descriptor number from n on that t does not use. */
  function LowestFrom(t: Table, n: nat): (fd: nat)
    ensures n <= fd && fd !in t
    ensures forall k :: n <= k < fd ==> k in t
    decreases |From(t, n)|
  {
    if n !in t then n
    else
      assert From(t, n + 1) == From(t, n) - {n};
      LowestFrom(t, n + 1)
  }

  function LowestFree(t: Table): (fd: nat)
    ensures fd !in t
    ensures forall k :: 0 <= k < fd ==> k in t
  {
    LowestFrom(t, 0)
  }

  /** The effect of one operation on the descriptor table of the process that issues it;
      an operation on a number that is not open changes nothing. */
  function Apply(t: Table, op: Op): Table {
    match op
    case Pipe2(id) =>
      var t1 := t[LowestFree(t) := Entry(ReadEnd(id), true)];
      t1[LowestFree(t1) := Entry(WriteEnd(id), true)]
    case Open(name) => t[LowestFree(t) := Entry(File(name), false)]
    case OpenSock(owner) => t[LowestFree(t) := Entry(Sock(owner), false)]
    case Dup(from) => if from in t then t[LowestFree(t) := Entry(t[from].obj, false)] else t
    case Dup2(from, to) =>
      if from in t && from != to then t[to := Entry(t[from].obj, false)] else t
    case Close(fd) => t - {fd}
    case Exec(_) => map fd | fd in t && !t[fd].cloexec :: t[fd]
    case _ => t
  }

  function ApplyAll(t: Table, ops: seq<Op>): Table
    decreases |ops|
  {
    if ops == [] then t else ApplyAll(Apply(t, ops[0]), ops[1..])
  }

  /** A forked process: the table it copied and the operations it is going to issue. */
  datatype Child = Child(table: Table, prog: seq<Op>)

  /** An operation together with the table it was issued on and the number of children by then. */
  datatype Event = Event(op: Op, before: Table, born: nat)

  /** The shell process: its table, the number of pipes made, its children and its history.
      The child at index u has process number u + 1; number 0 stands for no process. */
  datatype Proc = Proc(fds: Table, pipes: nat, kids: seq<Child>, log: seq<Event>)

  function Do(k: Proc, op: Op): Proc {
    Proc(Apply(k.fds, op),
         if op.Pipe2? then k.pipes + 1 else k.pipes,
         if op.Fork? then k.kids + [Child(k.fds, op.prog)] else k.kids,
         k.log + [Event(op, k.fds, |k.kids|)])
  }

  function DoAll(k: Proc, ops: seq<Op>): Proc
    decreases |ops|
  {
    if ops == [] then k else DoAll(Do(k, ops[0]), ops[1..])
  }

  /** The table a child has once it has executed its whole program. */
  function View(c: Child): Table {
    ApplyAll(c.table, c.prog)
  }

  lemma ApplyAllConcat(t: Table, a: seq<Op>, b: seq<Op>)
    ensures ApplyAll(t, a + b) == ApplyAll(ApplyAll(t, a), b)
    decreases |a|
  {
    if a == [] {
      assert a + b == b;
    } else {
      assert (a + b)[1..] == a[1..] + b;
      ApplyAllConcat(Apply(t, a[0]), a[1..], b);
    }
  }
}
