/** What a user's pipe variables name after a piece. */
module UserVars {
  import opened Kernel
  import opened Pipes
  import opened Shell
  import opened Ownership
  import opened UserShell

  lemma BeginVars(f: Flight, live: set<nat>, user: nat, readUid: int)
    requires |f.m.s.ring| == SIZE
    ensures UBegin(f, live, user, readUid).m.s.eol == NewEnds(f.m.k.fds, f.m.k.pipes)
  {
    hide NewEnds, Apply, LowestFree;
  }

  lemma StageVars(f: Flight, live: set<nat>, user: nat, writeUid: int, link: Link, argv: seq<string>)
    requires |f.m.s.ring| == SIZE
    ensures UStage(f, live, user, writeUid, link, argv).m.s.eol == f.m.s.eol
  {
    hide NewEnds, Apply, LowestFree, DoAll, Slot;
  }

  lemma {:induction false} StagesVars(f: Flight, live: set<nat>, user: nat, p: Piece, j: nat)
    requires |f.m.s.ring| == SIZE
    ensures UStages(f, live, user, p, j).m.s.eol == f.m.s.eol
  {
    hide UStage;
    if j > 0 {
      StagesVars(f, live, user, p, j - 1);
      StageVars(UStages(f, live, user, p, j - 1), live, user, p.writeUid, LinkOf(p.cmds, j - 1), ArgvOf(p.cmds, j - 1));
    }
  }

  lemma DrainTable(k: Proc, eol: Ends)
    ensures DoAll(k, DrainOps(eol)).fds == k.fds - {eol.wr} - {eol.rd}
  {
    var k1 := Do(k, Close(eol.wr));
    var k2 := Do(k1, Drain(eol.rd));
    var ops := DrainOps(eol);
    assert ops[1..] == [Drain(eol.rd), Close(eol.rd)];
    assert DoAll(k, ops) == DoAll(k1, ops[1..]);
    DoTwo(k1, Drain(eol.rd), Close(eol.rd));
  }

  lemma FinishVars(m: Machine, numbered: bool)
    ensures var r := Finish(m, numbered);
            && r.s.eol == m.s.eol && r.s.prev == NoEnds
            && (numbered ==> m.s.eol.rd !in r.k.fds && m.s.eol.wr !in r.k.fds)
            && (!numbered ==> r.s.curr == NoEnds)
  {
    hide DoAll, DrainOps;
    if numbered { DrainTable(DoAll(m.k, CloseOps(m.s.prev)), m.s.eol); }
  }

  /** eol keeps the numbers of the piece's barrier pipe, which are no longer open if the piece ends
      in a numbered pipe; prevPipe is empty, and so is currPipe if it does not. */
  lemma RunVars(f: Flight, live: set<nat>, user: nat, p: Piece)
    requires |f.m.s.ring| == SIZE
    ensures var r := URun(f, live, user, p);
            && r.m.s.eol == NewEnds(f.m.k.fds, f.m.k.pipes) && r.m.s.prev == NoEnds
            && (EndsNumbered(p.cmds) ==> r.m.s.eol.rd !in r.m.k.fds && r.m.s.eol.wr !in r.m.k.fds)
            && (!EndsNumbered(p.cmds) ==> r.m.s.curr == NoEnds)
  {
    hide UBegin, UStages, Finish, NewEnds;
    BeginVars(f, live, user, p.readUid);
    var f1 := UBegin(f, live, user, p.readUid);
    StagesVars(f1, live, user, p, StageCount(p.cmds));
    FinishVars(UStages(f1, live, user, p, StageCount(p.cmds)).m, EndsNumbered(p.cmds));
  }

  /** Closing the three variables. */
  lemma ClosedVars(m: Machine)
    ensures var r := CloseVariables(m); var held := Keys(m.s.eol) + Keys(m.s.prev) + Keys(m.s.curr);
            && r.k.fds == m.k.fds - held && r.k.kids == m.k.kids && r.k.pipes == m.k.pipes
            && (LogOk(m.k) ==> LogOk(r.k))
            && r.s == m.s.(eol := NoEnds, prev := NoEnds, curr := NoEnds)
  {
    hide DoAll, CloseOps, LogOk;
    CloseEffect(m.k, m.s.eol);
    var k1 := DoAll(m.k, CloseOps(m.s.eol));
    CloseEffect(k1, m.s.prev);
    var k2 := DoAll(k1, CloseOps(m.s.prev));
    CloseEffect(k2, m.s.curr);
  }
}
