/** A piece can only put pipes it makes itself into mailboxes. */
module UserBoxes {
  import opened Kernel
  import opened Pipes
  import opened Shell
  import opened Ownership
  import opened UserShell
  import opened UserPipes

  /** No pipe of f that is in nobody's box gets into one on the way to r. */
  ghost predicate BoxKeep(f: Flight, r: Flight) {
    && f.m.k.pipes <= r.m.k.pipes
    && forall e: nat :: e < f.m.k.pipes && Unboxed(f.pipes, f.notes, e) ==> Unboxed(r.pipes, r.notes, e)
  }

  lemma BoxTrans(a: Flight, b: Flight, c: Flight)
    requires BoxKeep(a, b) && BoxKeep(b, c)
    ensures BoxKeep(a, c)
  {
    hide Unboxed;
  }

  lemma BoxSame(f: Flight, m: Machine)
    requires f.m.k.pipes <= m.k.pipes
    ensures BoxKeep(f, f.(m := m))
  {
    hide Unboxed;
  }

  lemma WroteKeeps(pipes: PipeTable, notes: seq<Note>, s: nat, r: nat, id: nat, p: Ends, e: nat)
    requires Unboxed(pipes, notes, e) && e != id
    ensures Unboxed(pipes[(r, s) := p], notes + [Wrote(s, r, id)], e)
  {
    forall r': nat, s': nat | (r', s') in pipes[(r, s) := p]
      ensures Mailbox(notes + [Wrote(s, r, id)], s', r') != Full(e)
    {
      MailboxMore(notes, Wrote(s, r, id), s', r');
    }
  }

  lemma TookKeeps(pipes: PipeTable, notes: seq<Note>, s: nat, r: nat, id: nat, e: nat)
    requires Unboxed(pipes, notes, e)
    ensures Unboxed(pipes - {(r, s)}, notes + [Took(s, r, id)], e)
  {
    forall r': nat, s': nat | (r', s') in pipes - {(r, s)}
      ensures Mailbox(notes + [Took(s, r, id)], s', r') != Full(e)
    {
      MailboxMore(notes, Took(s, r, id), s', r');
    }
  }

  lemma NewId(k: Proc)
    ensures IdAt(MakePipe(k).fds, NewEnds(k.fds, k.pipes).wr) == k.pipes
  {
  }

  lemma ReadBoxes(f: Flight, live: set<nat>, user: nat, uid: int)
    ensures BoxKeep(f, ReadUser(f, live, user, uid))
  {
    hide Unboxed, Apply, LogOk;
    if Exists(live, uid) && (user, uid as nat) in f.pipes {
      var p := f.pipes[(user, uid as nat)];
      CloseEffect(Do(f.m.k, Dup(p.rd)), p);
      forall e: nat | Unboxed(f.pipes, f.notes, e)
        ensures Unboxed(f.pipes - {(user, uid as nat)}, f.notes + [Took(uid, user, IdAt(f.m.k.fds, p.rd))], e)
      {
        TookKeeps(f.pipes, f.notes, uid, user, IdAt(f.m.k.fds, p.rd), e);
      }
    }
  }

  lemma WriteBoxes(f: Flight, live: set<nat>, user: nat, uid: int)
    ensures BoxKeep(f, WriteUser(f, live, user, uid))
  {
    NewId(f.m.k);
    hide Unboxed, Apply, IdAt, NewEnds;
    if Exists(live, uid) && (uid as nat, user) !in f.pipes {
      var p := NewEnds(f.m.k.fds, f.m.k.pipes);
      forall e: nat | e < f.m.k.pipes && Unboxed(f.pipes, f.notes, e)
        ensures Unboxed(f.pipes[(uid as nat, user) := p], f.notes + [Wrote(user, uid, f.m.k.pipes)], e)
      {
        WroteKeeps(f.pipes, f.notes, user, uid, f.m.k.pipes, p, e);
      }
    }
  }

  lemma StageBoxes(f: Flight, live: set<nat>, user: nat, writeUid: int, link: Link, argv: seq<string>)
    requires |f.m.s.ring| == SIZE
    ensures BoxKeep(f, UStage(f, live, user, writeUid, link, argv))
  {
    hide BoxKeep, Apply, LogOk, WriteUser;
    CloseEffect(f.m.k, f.m.s.prev);
    var f1 := f.(m := Shift(f.m));
    BoxSame(f, f1.m);
    var f2 := UConnect(f1, live, user, writeUid, link);
    if link == Via(UserTo) {
      if 0 < writeUid { WriteBoxes(f1, live, user, writeUid); } else { BoxSame(f1, f1.m); }
    } else {
      BoxSame(f1, f2.m);
    }
    BoxTrans(f, f1, f2);
    BoxSame(f2, Spawn(f2.m, PipeError(link), argv));
    BoxTrans(f, f2, UStage(f, live, user, writeUid, link, argv));
  }

  lemma {:induction false} StagesBoxes(f: Flight, live: set<nat>, user: nat, p: Piece, j: nat)
    requires |f.m.s.ring| == SIZE
    ensures BoxKeep(f, UStages(f, live, user, p, j))
  {
    hide BoxKeep, UStage;
    if j == 0 {
      BoxSame(f, f.m);
    } else {
      var f1 := UStages(f, live, user, p, j - 1);
      StagesBoxes(f, live, user, p, j - 1);
      StageBoxes(f1, live, user, p.writeUid, LinkOf(p.cmds, j - 1), ArgvOf(p.cmds, j - 1));
      BoxTrans(f, f1, UStages(f, live, user, p, j));
    }
  }

  lemma ReadPipes(f: Flight, live: set<nat>, user: nat, uid: int)
    ensures ReadUser(f, live, user, uid).m.k.pipes == f.m.k.pipes
  {
    hide Apply, LogOk;
    if Exists(live, uid) && (user, uid as nat) in f.pipes {
      CloseEffect(Do(f.m.k, Dup(f.pipes[(user, uid as nat)].rd)), f.pipes[(user, uid as nat)]);
    }
  }

  lemma BoxPipes(f: Flight, r: Flight)
    requires BoxKeep(f, r)
    ensures f.m.k.pipes <= r.m.k.pipes
  {
    hide Unboxed;
  }

  lemma BeginBoxes(f: Flight, live: set<nat>, user: nat, readUid: int)
    requires |f.m.s.ring| == SIZE
    ensures BoxKeep(f, UBegin(f, live, user, readUid)) && |UBegin(f, live, user, readUid).m.s.ring| == SIZE
    ensures UBegin(f, live, user, readUid).m.k.pipes == f.m.k.pipes + 1
  {
    hide BoxKeep;
    var f1 := f.(m := Begin(f.m));
    BoxSame(f, f1.m);
    if 0 < readUid {
      ReadBoxes(f1, live, user, readUid);
      ReadPipes(f1, live, user, readUid);
      BoxTrans(f, f1, ReadUser(f1, live, user, readUid));
    }
  }

  lemma RunBoxes(f: Flight, live: set<nat>, user: nat, p: Piece)
    requires |f.m.s.ring| == SIZE
    ensures BoxKeep(f, URun(f, live, user, p)) && f.m.k.pipes < URun(f, live, user, p).m.k.pipes
  {
    hide BoxKeep, UBegin, UStages, Finish;
    var f1 := UBegin(f, live, user, p.readUid);
    BeginBoxes(f, live, user, p.readUid);
    StagesBoxes(f1, live, user, p, StageCount(p.cmds));
    var f2 := UStages(f1, live, user, p, StageCount(p.cmds));
    BoxTrans(f, f1, f2);
    BoxPipes(f1, f2);
    FinishKids(f2.m, EndsNumbered(p.cmds));
    BoxSame(f2, Finish(f2.m, EndsNumbered(p.cmds)));
    BoxTrans(f, f2, URun(f, live, user, p));
  }
}
