/**
 The single-process server's executor: the shell of project 1 once per user, all in one process,
 extended by pipes from user to user, as functions on values.
 */
module UserShell {
  import opened Kernel
  import opened Pipes
  import opened Shell
  import opened Ownership

  /** The length of a user's array of user pipes, which is indexed by the sender's id. */
  const MAX_CONN: nat := 31

  /** What happens to user pipes, in order: a user joins, sender writes, receiver reads. */
  datatype Note = Joined(user: nat) | Wrote(sender: nat, receiver: nat, id: nat) | Took(sender: nat, receiver: nat, id: nat)

  /** A piece with the user ids its `<n` and `>n` set; 0 is "none". */
  datatype Piece = Piece(cmds: seq<Command>, readUid: int, writeUid: int)

  type PipeTable = map<(nat, nat), Ends>

  /** The process, the running user's shell, the user pipes by (receiver, sender), and the notes. */
  datatype Flight = Flight(m: Machine, pipes: PipeTable, notes: seq<Note>)

  predicate Exists(live: set<nat>, uid: int) {
    0 < uid <= MAX_CONN && uid in live
  }

  function Redirected(f: Flight, k: Proc, curr: Ends): Flight {
    f.(m := Machine(k, f.m.s.(curr := curr)))
  }

  /** open("/dev/null") in place of a pipe that cannot be had. */
  function ReadNull(f: Flight): Flight {
    Redirected(f, Do(f.m.k, Kernel.Open("/dev/null")), Ends(LowestFree(f.m.k.fds), -1))
  }

  function WriteNull(f: Flight): Flight {
    Redirected(f, Do(f.m.k, Kernel.Open("/dev/null")), Ends(-1, LowestFree(f.m.k.fds)))
  }

  function IdAt(t: Table, fd: int): nat {
    var o := At(t, fd);
    if o.ReadEnd? || o.WriteEnd? then o.id else 0
  }

  /** readUserPipe: a copy of the read end becomes the current pipe, both ends are closed. */
  function ReadUser(f: Flight, live: set<nat>, user: nat, uid: int): Flight {
    if !Exists(live, uid) || (user, uid as nat) !in f.pipes then ReadNull(f)
    else
      var p := f.pipes[(user, uid as nat)];
      var k1 := Do(f.m.k, Dup(p.rd));
      var curr := Ends(if p.rd in f.m.k.fds then LowestFree(f.m.k.fds) else -1, -1);
      Redirected(f, DoAll(k1, CloseOps(p)), curr)
        .(pipes := f.pipes - {(user, uid as nat)},
          notes := f.notes + [Took(uid, user, IdAt(f.m.k.fds, p.rd))])
  }

  /** writeUserPipe: a new pipe is kept for the receiver, a copy of its write end becomes the
      current pipe. */
  function WriteUser(f: Flight, live: set<nat>, user: nat, uid: int): Flight {
    if !Exists(live, uid) || (uid as nat, user) in f.pipes then WriteNull(f)
    else
      var p := NewEnds(f.m.k.fds, f.m.k.pipes);
      var k1 := MakePipe(f.m.k);
      Redirected(f, Do(k1, Dup(p.wr)), Ends(-1, if p.wr in k1.fds then LowestFree(k1.fds) else -1))
        .(pipes := f.pipes[(uid as nat, user) := p],
          notes := f.notes + [Wrote(user, uid, IdAt(k1.fds, p.wr))])
  }

  function UBegin(f: Flight, live: set<nat>, user: nat, readUid: int): (r: Flight)
    requires |f.m.s.ring| == SIZE
    ensures |r.m.s.ring| == SIZE
  {
    var f1 := f.(m := Begin(f.m));
    if 0 < readUid then ReadUser(f1, live, user, readUid) else f1
  }

  function UConnect(f: Flight, live: set<nat>, user: nat, writeUid: int, link: Link): (r: Flight)
    requires |f.m.s.ring| == SIZE
    ensures |r.m.s.ring| == SIZE
  {
    if link == Via(UserTo) then (if 0 < writeUid then WriteUser(f, live, user, writeUid) else f)
    else f.(m := Connect(f.m, link))
  }

  function UStage(f: Flight, live: set<nat>, user: nat, writeUid: int, link: Link, argv: seq<string>): (r: Flight)
    requires |f.m.s.ring| == SIZE
    ensures |r.m.s.ring| == SIZE
  {
    var f1 := f.(m := Shift(f.m));
    var f2 := UConnect(f1, live, user, writeUid, link);
    f2.(m := Spawn(f2.m, PipeError(link), argv))
  }

  function UStages(f: Flight, live: set<nat>, user: nat, p: Piece, j: nat): (r: Flight)
    requires |f.m.s.ring| == SIZE
    ensures |r.m.s.ring| == SIZE
  {
    if j == 0 then f
    else UStage(UStages(f, live, user, p, j - 1), live, user, p.writeUid, LinkOf(p.cmds, j - 1), ArgvOf(p.cmds, j - 1))
  }

  /** One piece of the line of user. */
  function URun(f: Flight, live: set<nat>, user: nat, p: Piece): (r: Flight)
    requires |f.m.s.ring| == SIZE
    ensures |r.m.s.ring| == SIZE
  {
    var f1 := UStages(UBegin(f, live, user, p.readUid), live, user, p, StageCount(p.cmds));
    f1.(m := Finish(f1.m, EndsNumbered(p.cmds)))
  }

  /** The pieces of a line, one after the other. */
  function ULine(f: Flight, live: set<nat>, user: nat, ps: seq<Piece>): (r: Flight)
    requires |f.m.s.ring| == SIZE
    ensures |r.m.s.ring| == SIZE
  {
    if ps == [] then f else URun(ULine(f, live, user, ps[..|ps| - 1]), live, user, ps[|ps| - 1])
  }
}
