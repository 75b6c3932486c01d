/**
 User pipes in the form of the program: the server's methods that hand a pipe from one user to
 another, and the user's command handler that calls them.  Each method is proved to do what the
 functions of module UserShell say.
 */
module UserHandling {
  import opened Kernel
  import opened Pipes
  import opened Shell
  import opened UserShell
  import opened CmdHandling
  import opened UserParser

  datatype Mode = ForReading | ForWriting

  class PipeServer {
    const os: Process
    /** The ids of the registered users. */
    var users: set<nat>
    /** users[receiver].userPipes[sender], where it is not empty. */
    var userPipes: PipeTable
    /** The one pointer all users' numbered pipes go through. */
    var numberPipeList: CircularBuffer?<Ends>
    ghost var notes: seq<Note>

    constructor (os: Process)
      ensures this.os == os && users == {} && userPipes == map[] && notes == [] && numberPipeList == null
    {
      this.os := os;
      numberPipeList := null;
      users := {};
      userPipes := map[];
      notes := [];
    }

    /** Ids are within the arrays of user pipes, which are indexed by the sender's id. */
    ghost predicate Bounded()
      reads this
    {
      forall u :: u in users ==> 1 <= u < MAX_CONN
    }

    /** Is there such a user, and is the pair's pipe there?  The receiver's array is indexed by the
        sender's id; an id past its end is not looked up. */
    method HandleUserPipe(id: nat, uid: int, mode: Mode) returns (userExist: bool, pipeExist: bool, inBounds: bool)
      requires 0 < uid
      ensures userExist == Exists(users, uid)
      ensures inBounds == (userExist ==> (if mode.ForWriting? then id else uid) < MAX_CONN)
      ensures userExist && inBounds ==>
                pipeExist == ((if mode.ForWriting? then (uid as nat, id) else (id, uid as nat)) in userPipes)
    {
      userExist, pipeExist, inBounds := true, mode.ForReading?, true;
      if uid > MAX_CONN || uid !in users {
        userExist := false;
      } else {
        match mode
        case ForWriting =>
          inBounds := id < MAX_CONN;
          if inBounds && (uid as nat, id) in userPipes { pipeExist := true; }
        case ForReading =>
          inBounds := uid < MAX_CONN;
          if inBounds && (id, uid as nat) !in userPipes { pipeExist := false; }
      }
    }

    /** The descriptor taken in place of a pipe that cannot be had. */
    method HandleUserPipeError() returns (devNull: int)
      modifies os
      ensures os.k == Do(old(os.k), Kernel.Open("/dev/null")) && devNull == LowestFree(old(os.k.fds))
    {
      devNull := os.OpenFile("/dev/null");
    }

    /** dup. */
    method Duplicate(fd: int) returns (copy: int)
      modifies os
      ensures os.k == Do(old(os.k), Dup(fd))
      ensures copy == if fd in old(os.k.fds) then LowestFree(old(os.k.fds)) else -1
    {
      copy := if fd in os.k.fds then LowestFree(os.k.fds) else -1;
      os.Issue(Dup(fd));
    }

    method WriteUserPipe(id: nat, writeUid: int, currPipe: Pipe, ghost s: Shell) returns (inBounds: bool)
      requires 0 < writeUid
      modifies this`userPipes, this`notes, os, currPipe
      ensures inBounds == (Exists(users, writeUid) ==> id < MAX_CONN)
      ensures var r := WriteUser(Flight(Machine(old(os.k), s), old(userPipes), old(notes)), users, id, writeUid);
              if inBounds then
                && os.k == r.m.k && currPipe.fd == r.m.s.curr && userPipes == r.pipes && notes == r.notes
                && r.m.s == s.(curr := currPipe.fd)
              else
                os.k == old(os.k) && currPipe.fd == old(currPipe.fd) && userPipes == old(userPipes) && notes == old(notes)
    {
      var userExist, pipeExist: bool;
      userExist, pipeExist, inBounds := HandleUserPipe(id, writeUid, ForWriting);
      if !inBounds { return; }
      if !userExist || pipeExist {
        var devNull := HandleUserPipeError();
        currPipe.fd := Ends(-1, devNull);
        return;
      }
      var p := os.MakePipe2();
      userPipes := userPipes[(writeUid as nat, id) := p];
      notes := notes + [Wrote(id, writeUid, IdAt(os.k.fds, p.wr))];
      var copy := Duplicate(p.wr);
      currPipe.fd := Ends(-1, copy);
    }

    method ReadUserPipe(id: nat, readUid: int, currPipe: Pipe, ghost s: Shell) returns (inBounds: bool)
      requires 0 < readUid
      modifies this`userPipes, this`notes, os, currPipe
      ensures inBounds == (Exists(users, readUid) ==> readUid < MAX_CONN)
      ensures var r := ReadUser(Flight(Machine(old(os.k), s), old(userPipes), old(notes)), users, id, readUid);
              if inBounds then
                && os.k == r.m.k && currPipe.fd == r.m.s.curr && userPipes == r.pipes && notes == r.notes
                && r.m.s == s.(curr := currPipe.fd)
              else
                os.k == old(os.k) && currPipe.fd == old(currPipe.fd) && userPipes == old(userPipes) && notes == old(notes)
    {
      var userExist, pipeExist: bool;
      userExist, pipeExist, inBounds := HandleUserPipe(id, readUid, ForReading);
      if !inBounds { return; }
      if !userExist || !pipeExist {
        var devNull := HandleUserPipeError();
        currPipe.fd := Ends(devNull, -1);
        return;
      }
      var kept := new Pipe();
      kept.fd := userPipes[(id, readUid as nat)];
      notes := notes + [Took(readUid, id, IdAt(os.k.fds, kept.fd.rd))];
      var copy := Duplicate(kept.fd.rd);
      currPipe.fd := Ends(copy, -1);
      kept.ClosePipe(os);
      userPipes := userPipes - {(id, readUid as nat)};
    }
  }

  /** A user's command handler at work in the server. */
  class UserCmdHandler {
    const shell: CmdHandler
    const server: PipeServer
    const id: nat

    constructor (shell: CmdHandler, server: PipeServer, id: nat)
      ensures this.shell == shell && this.server == server && this.id == id
    {
      this.shell := shell;
      this.server := server;
      this.id := id;
    }

    ghost predicate Valid()
      reads this, shell, server
    {
      shell.Valid() && shell.os == server.os && id < MAX_CONN && server.Bounded()
    }

    /** The shared pointer names this user's ring. */
    ghost predicate Pointed()
      reads this, shell, server
    {
      server.numberPipeList == shell.numberPipeList
    }

    ghost function Parts(): set<object>
      reads this, shell
    {
      shell.Parts() - {shell}
    }

    ghost function State(): (f: Flight)
      requires shell.Valid()
      reads this, shell, shell.os, shell.numberPipeList, shell.numberPipeList.buffer, shell.currPipe, shell.prevPipe,
            shell.eol, shell.pipelineProcessor, server
      ensures |f.m.s.ring| == SIZE
    {
      Flight(shell.State(), server.userPipes, server.notes)
    }

    /** What precedes the loop over a piece's commands; the shared pointer is set to this user's
        ring. */
    method StartPiece(readUid: int)
      requires Valid()
      modifies Parts(), server`userPipes, server`notes, server`numberPipeList
      ensures Valid() && Pointed() && State() == UBegin(old(State()), server.users, id, readUid)
    {
      shell.StartPiece();
      server.numberPipeList := shell.numberPipeList;
      if readUid > 0 {
        var inBounds := server.ReadUserPipe(id, readUid, shell.currPipe, shell.State().s);
      }
    }

    /** createPipe of a numbered pipe, on whatever ring the shared pointer names. */
    method CreateNumbered(n: int, err: bool)
      requires Valid() && Pointed()
      modifies Parts()
      ensures Valid() && Pointed() && State() == UConnect(old(State()), server.users, id, 0, Via(Numbered(n, err)))
    {
      shell.currPipe.fd := server.numberPipeList.Get(n);
      if shell.currPipe.fd == NoEnds {
        shell.currPipe.Create(shell.os);
        server.numberPipeList.Set(n, shell.currPipe.fd);
      }
    }

    /** The pipe behind a program. */
    method CreatePipe(c: Command, writeUid: int)
      requires Valid() && Pointed() && !c.Exe?
      modifies Parts(), server`userPipes, server`notes
      ensures Valid() && Pointed() && State() == UConnect(old(State()), server.users, id, writeUid, Via(c))
    {
      if c == UserTo {
        if writeUid > 0 {
          var inBounds := server.WriteUserPipe(id, writeUid, shell.currPipe, shell.State().s);
        }
      } else if c.Numbered? {
        CreateNumbered(c.n, c.err);
      } else {
        shell.CreatePipe(c);
      }
    }

    method RunStage(cmds: seq<Command>, i: nat, writeUid: int)
      requires Valid() && Pointed() && Alternating(cmds) && i < |cmds| && cmds[i].Exe?
      modifies Parts(), server`userPipes, server`notes
      ensures Valid() && Pointed() && State() == UStage(old(State()), server.users, id, writeUid, LinkOf(cmds, i / 2), cmds[i].argv)
    {
      hide UConnect, Spawn;
      shell.prevPipe.ClosePipe(shell.os);
      shell.prevPipe.fd := shell.currPipe.fd;
      ghost var f1 := State();
      assert f1 == old(State()).(m := Shift(old(State()).m));
      var pipeErr := false;
      if i != |cmds| - 1 {
        assert cmds[i + 1].Exe? <==> (i + 1) % 2 == 0;
        CreatePipe(cmds[i + 1], writeUid);
        pipeErr := cmds[i + 1].Numbered? && cmds[i + 1].err;
      }
      assert LinkOf(cmds, i / 2) == if i != |cmds| - 1 then Via(cmds[i + 1]) else NoLink;
      ghost var f2 := State();
      assert f2 == UConnect(f1, server.users, id, writeUid, LinkOf(cmds, i / 2)) by { Idling(f1, server.users, id, writeUid); }
      shell.Launch(pipeErr, cmds[i].argv);
    }

    /** One piece of the line of user id. */
    method RunCommands(p: Piece)
      requires Valid() && Alternating(p.cmds)
      modifies Parts(), server`userPipes, server`notes, server`numberPipeList
      ensures Valid() && Pointed() && State() == URun(old(State()), server.users, id, p)
    {
      hide UBegin, UStage, Finish, LinkOf;
      StartPiece(p.readUid);
      ghost var begun := State();
      var i := 0;
      while i < |p.cmds|
        invariant 0 <= i <= |p.cmds| && Valid() && Pointed()
        invariant State() == UStages(begun, server.users, id, p, (i + 1) / 2)
      {
        if p.cmds[i].Exe? { RunStage(p.cmds, i, p.writeUid); }
        i := i + 1;
      }
      shell.EndPiece(p.cmds[|p.cmds| - 1].Numbered?);
    }

    /** The line just read: split, its exits carried out, its pieces executed in order. */
    method RunShell(line: string) returns (stays: bool)
      requires Valid()
      modifies Parts(), server`userPipes, server`notes, server`numberPipeList
      ensures Valid() && stays == (UQuits(line) == 0)
      ensures var f := old(State()); var f1 := f.(m := CloseTimes(f.m, UQuits(line)));
              State() == ULine(f1, server.users, id, UParse(line))
    {
      hide URun, UParse, UQuits, CloseVariables;
      var pieces, quits := ParseCommand(line);
      UParseShape(line);
      stays := quits == 0;
      var n := 0;
      while n < quits
        invariant 0 <= n <= quits && Valid()
        invariant State() == old(State()).(m := CloseTimes(old(State()).m, n))
      {
        shell.CloseAll();
        n := n + 1;
      }
      ghost var start := State();
      var i := 0;
      while i < |pieces|
        invariant 0 <= i <= |pieces| && Valid()
        invariant State() == ULine(start, server.users, id, pieces[..i])
      {
        RunCommands(pieces[i]);
        assert pieces[..i + 1][..i] == pieces[..i];
        i := i + 1;
      }
      assert pieces[..i] == pieces;
    }
  }

  /** Two command handlers of one server, with nothing but its process in common. */
  ghost predicate Beside(a: UserCmdHandler, b: UserCmdHandler)
    reads a, b, a.shell, b.shell
  {
    a.server == b.server && a.shell.os == b.shell.os && (a.Parts() - {a.shell.os}) !! (b.Parts() - {b.shell.os})
    && a.shell !in b.Parts() && b.shell !in a.Parts()
  }

  /** One user's turn, seen by another: his shell is as it was. */
  method Turn(a: UserCmdHandler, b: UserCmdHandler, p: Piece)
    requires a.Valid() && b.Valid() && Beside(a, b) && Alternating(p.cmds)
    modifies a.Parts(), a.server`userPipes, a.server`notes, a.server`numberPipeList
    ensures a.Valid() && b.Valid() && a.Pointed() && a.State() == URun(old(a.State()), a.server.users, a.id, p)
    ensures b.State() == Flight(Machine(a.State().m.k, old(b.State()).m.s), a.State().pipes, a.State().notes)
  {
    hide URun, Alternating, Beside;
    Separate(a, b);
    ghost var fb := b.State();
    a.RunCommands(p);
    assert b.State().m.s == fb.m.s;
  }

  lemma Separate(a: UserCmdHandler, b: UserCmdHandler)
    requires Beside(a, b)
    ensures a.server == b.server && a.shell.os == b.shell.os
    ensures var s := b.shell;
            && s !in a.Parts() && s.currPipe !in a.Parts() && s.prevPipe !in a.Parts() && s.eol !in a.Parts()
            && s.numberPipeList !in a.Parts() && s.numberPipeList.buffer !in a.Parts() && s.pipelineProcessor !in a.Parts()
  {
    var s := b.shell;
    var os: object := a.shell.os;
    assert os is Process && !(os is Pipe) && !(os is CircularBuffer<Ends>);
    var A, B := a.Parts() - {os}, b.Parts() - {os};
    assert forall o :: o in B ==> o !in A;
    assert s.currPipe in B && s.prevPipe in B && s.eol in B;
    assert s.numberPipeList in B && s.numberPipeList.buffer in B && s.pipelineProcessor in B;
  }

  /** Two users' turns, one after the other, through the one shared pointer: the second user's piece
      starts from what the first left of the process and the user pipes, runs on his own ring, and
      leaves the first user's ring as it was. */
  method TwoTurns(a: UserCmdHandler, b: UserCmdHandler, p: Piece, q: Piece)
    requires a.Valid() && b.Valid() && Beside(a, b) && Alternating(p.cmds) && Alternating(q.cmds)
    modifies a.Parts(), b.Parts(), a.server`userPipes, a.server`notes, a.server`numberPipeList
    ensures a.Valid() && b.Valid() && b.Pointed()
    ensures var live := a.server.users; var fa := old(a.State()); var fb := old(b.State());
            var r := URun(fa, live, a.id, p); var s := URun(Flight(Machine(r.m.k, fb.m.s), r.pipes, r.notes), live, b.id, q);
            && b.State() == s && a.State().m.s == r.m.s
  {
    hide URun, Alternating;
    Turn(a, b, p);
    Turn(b, a, q);
  }

  /** Without a command behind the program nothing is connected. */
  lemma Idling(f: Flight, live: set<nat>, user: nat, writeUid: int)
    requires |f.m.s.ring| == SIZE
    ensures UConnect(f, live, user, writeUid, NoLink) == f
  {
  }
}
