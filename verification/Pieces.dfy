/** What executing one piece does to the shell's descriptors, children and history. */
module Pieces {
  import opened Kernel
  import opened Pipes
  import opened Shell
  import opened Ownership
  import opened Stages

  /** p names both ends of pipe id, and nothing else in t does. */
  ghost predicate Owns(t: Table, p: Ends, id: nat) {
    && 3 <= p.rd && 3 <= p.wr && p.rd in t && p.wr in t
    && t[p.rd] == Entry(ReadEnd(id), true) && t[p.wr] == Entry(WriteEnd(id), true)
    && forall fd :: fd in t && IsEnd(t[fd].obj, id) ==> fd == p.rd || fd == p.wr
  }

  /** Between two pieces. */
  ghost predicate Idle(m: Machine) {
    && Sound(m.k) && WindowOk(m)
    && m.s.prev == NoEnds
    && Gone(m.k.kids, |m.k.kids|, m.k.fds)
  }

  /** The child c was forked while fd held the write end of pipe id, and keeps it until exec. */
  ghost predicate Bars(c: Child, fd: int, id: nat) {
    && fd in c.table && c.table[fd].obj == WriteEnd(id)
    && c.prog != [] && c.prog[|c.prog| - 1].Exec?
    && forall i :: 0 <= i < |c.prog| - 1 ==>
         (c.prog[i].Close? && c.prog[i].fd != fd) || (c.prog[i].Dup2? && c.prog[i].to != fd)
  }

  /** The barrier pipe e of the running piece: the shell owns it, no program holds its write
      end, and every child forked since index first carries it up to its exec. */
  ghost predicate Barrier(m: Machine, base: Table, e: nat, first: nat) {
    && Owns(m.k.fds, m.s.eol, e) && e < m.k.pipes
    && m.s.eol.rd in base && m.s.eol.wr in base
    && first <= |m.k.kids|
    && (forall u, fd :: 0 <= u < |m.k.kids| && fd in View(m.k.kids[u]) ==>
          View(m.k.kids[u])[fd].obj != WriteEnd(e))
    && forall u :: first <= u < |m.k.kids| ==> Bars(m.k.kids[u], m.s.eol.wr, e)
  }

  lemma BeginOk(m: Machine)
    requires Idle(m)
    requires var q := m.s.ring[NextHead(m.s.head)]; q == NoEnds || exists id :: Owns(m.k.fds, q, id)
    ensures var m1 := Begin(m); var q := m1.s.curr; var e := m1.s.eol;
            var base := m1.k.fds - Keys(q);
            && Loop(m1, base) && Barrier(m1, base, m.k.pipes, |m.k.kids|)
            && m1.k.kids == m.k.kids && m1.k.pipes == m.k.pipes + 1
            && Keys(e) == {e.rd, e.wr} && Keys(e) !! m.k.fds.Keys
            && m1.k.fds == m.k.fds[e.rd := Entry(ReadEnd(m.k.pipes), true)][e.wr := Entry(WriteEnd(m.k.pipes), true)]
            && m1.s == m.s.(eol := e, head := NextHead(m.s.head), curr := q)
  {
    PipeEffect(m.k);
    var m1 := Begin(m);
    var t := m1.k.fds;
    var base := t - Keys(m1.s.curr);
    assert t - Keys(m1.s.prev) == t;
    forall u | 0 <= u < |m.k.kids|
      ensures In(m.k.kids[u]).ReadEnd? ==> Lacks(t, In(m.k.kids[u]).id)
      ensures forall fd :: fd in View(m.k.kids[u]) ==> View(m.k.kids[u])[fd].obj != WriteEnd(m.k.pipes)
    {
      assert KidOk(m.k.kids[u], m.k.pipes);
      if In(m.k.kids[u]).ReadEnd? { assert Lacks(m.k.fds, In(m.k.kids[u]).id); }
    }
    assert Gone(m1.k.kids, |m1.k.kids|, t);
    assert Sole(t, m1.s.curr);
    assert t - Keys(m1.s.prev) - Keys(m1.s.curr) == base;
  }

  lemma ProgramSpares(prev: Ends, curr: Ends, err: bool, fd: int, argv: seq<string>)
    requires 3 <= fd && fd !in Keys(prev) + Keys(curr)
    ensures var p := ChildProgram(prev, curr, err, argv);
            && p != [] && p[|p| - 1] == Exec(argv)
            && forall i :: 0 <= i < |p| - 1 ==>
                 (p[i].Close? && p[i].fd != fd) || (p[i].Dup2? && p[i].to != fd)
  {
    var p := ChildProgram(prev, curr, err, argv);
    var body := ReadOps(prev) + WriteOps(curr, err);
    assert p == body + [Exec(argv)];
    assert forall op :: op in CloseOps(prev) + CloseOps(curr) ==> op.Close? && op.fd != fd;
    forall i | 0 <= i < |p| - 1
      ensures (p[i].Close? && p[i].fd != fd) || (p[i].Dup2? && p[i].to != fd)
    {
      assert p[i] == body[i] && body[i] in body;
      assert body[i] in ReadOps(prev) || body[i] in WriteOps(curr, err);
    }
  }

  /** Forking a stage keeps the barrier, and extends it to the new child. */
  lemma SpawnBarrier(m: Machine, base: Table, e: nat, first: nat, err: bool, argv: seq<string>)
    requires Ready(m) && Barrier(m, base, e, first)
    requires m.s.eol.wr !in Keys(m.s.prev) + Keys(m.s.curr)
    ensures Barrier(Spawn(m, err, argv), base, e, first)
  {
    var prog := ChildProgram(m.s.prev, m.s.curr, err, argv);
    var c := Child(m.k.fds, prog);
    SpawnOk(m, err, argv);
    SpawnView(m.k.fds, m.k.pipes, m.s.prev, m.s.curr, err, argv);
    ProgramSpares(m.s.prev, m.s.curr, err, m.s.eol.wr, argv);
    var kids := Spawn(m, err, argv).k.kids;
    forall u | 0 <= u < |kids|
      ensures forall fd :: fd in View(kids[u]) ==> View(kids[u])[fd].obj != WriteEnd(e)
      ensures first <= u ==> Bars(kids[u], m.s.eol.wr, e)
    {
      if u < |m.k.kids| {
        assert kids[u] == m.k.kids[u];
      } else {
        assert kids[u] == c;
      }
    }
  }

  lemma StageBarrier(m: Machine, base: Table, link: Link, e: nat, first: nat, argv: seq<string>)
    requires Loop(m, base) && Barrier(m, base, e, first) && Ordinary(link)
    ensures Barrier(Stage(m, link, argv), base, e, first)
  {
    ShiftOk(m, base);
    var m1 := Shift(m);
    var m2 := Connect(m1, link);
    if link.c.PipeTo? { NewPipeOk(m1); } else { NewFileOk(m1, link.c.name); }
    assert Barrier(m2, base, e, first);
    SpawnBarrier(m2, base, e, first, PipeError(link), argv);
  }

  predicate AllOrdinary(cmds: seq<Command>, j: nat) {
    forall i :: 0 <= i < j ==> Ordinary(LinkOf(cmds, i))
  }

  /** r is m with n more children; ring, position and barrier pipe are the same. */
  ghost predicate Advances(m: Machine, r: Machine, n: nat) {
    && r.s.ring == m.s.ring && r.s.head == m.s.head && r.s.eol == m.s.eol
    && |r.k.kids| == |m.k.kids| + n && m.k.kids <= r.k.kids
    && m.k.pipes <= r.k.pipes
    && (0 < n ==> r.s.w1 == |r.k.kids|)
  }

  lemma StageAdvances(m: Machine, base: Table, link: Link, argv: seq<string>)
    requires Loop(m, base) && Ordinary(link)
    ensures Advances(m, Stage(m, link, argv), 1)
  {
    ShiftOk(m, base);
    var m1 := Shift(m);
    if link.c.PipeTo? { NewPipeOk(m1); } else { NewFileOk(m1, link.c.name); }
    SpawnOk(Connect(m1, link), PipeError(link), argv);
  }

  /** The invariant of the loop over the stages of a piece that started in m0. */
  ghost predicate Going(m0: Machine, m: Machine, base: Table, e: nat, j: nat) {
    && Loop(m, base) && Barrier(m, base, e, |m0.k.kids|) && Advances(m0, m, j)
  }

  lemma StageGoing(m0: Machine, m: Machine, base: Table, e: nat, j: nat, link: Link, argv: seq<string>)
    requires Going(m0, m, base, e, j) && Ordinary(link)
    ensures Going(m0, Stage(m, link, argv), base, e, j + 1)
  {
    StageOk(m, base, link, argv);
    StageBarrier(m, base, link, e, |m0.k.kids|, argv);
    StageAdvances(m, base, link, argv);
  }

  lemma {:induction false} StagesOk(m: Machine, cmds: seq<Command>, j: nat, base: Table, e: nat)
    requires |m.s.ring| == SIZE && Going(m, m, base, e, 0) && AllOrdinary(cmds, j)
    ensures Going(m, AfterStages(m, cmds, j), base, e, j)
  {
    hide Going, Stage;
    if j > 0 {
      StagesOk(m, cmds, j - 1, base, e);
      StageGoing(m, AfterStages(m, cmds, j - 1), base, e, j - 1, LinkOf(cmds, j - 1), ArgvOf(cmds, j - 1));
    }
  }

  /** After the last fork of a piece: closing prev and curr leaves base. */
  ghost predicate Done(m: Machine, base: Table) {
    && Sound(m.k) && WindowOk(m) && 0 < m.s.w1
    && Above(m.s.prev) && Above(m.s.curr)
    && m.k.fds - Keys(m.s.prev) - Keys(m.s.curr) == base
    && Gone(m.k.kids, |m.k.kids|, m.k.fds - Keys(m.s.prev))
  }

  /** A piece that does not end in a numbered pipe: wait for its last program, then close. */
  lemma FinishPlain(m: Machine, base: Table)
    requires Done(m, base)
    ensures var f := Finish(m, false);
            && Idle(f) && f.k.fds == base && f.k.kids == m.k.kids && f.k.pipes == m.k.pipes
            && f.s == m.s.(prev := NoEnds, curr := NoEnds)
            && exists i :: |m.k.log| <= i < |f.k.log| && f.k.log[i].op == Wait(m.s.w1)
  {
    var k1 := DoAll(m.k, CloseOps(m.s.prev));
    CloseEffect(m.k, m.s.prev);
    var k2 := Do(k1, Wait(m.s.w1));
    DoLog(k1, Wait(m.s.w1));
    var f := Finish(m, false);
    CloseEffect(k2, m.s.curr);
    StdStays(m.k.fds, m.s.prev, m.k.pipes);
    StdStays(k1.fds, m.s.curr, m.k.pipes);
    assert f.k.log[|k1.log|] == k2.log[|k1.log|];
    forall u | 0 <= u < |f.k.kids| && In(f.k.kids[u]).ReadEnd?
      ensures Lacks(f.k.fds, In(f.k.kids[u]).id)
    {
      assert Lacks(k1.fds, In(f.k.kids[u]).id);
    }
  }

  lemma DrainEffect(k: Proc, eol: Ends, e: nat)
    requires Sound(k) && Owns(k.fds, eol, e)
    requires forall u, fd :: 0 <= u < |k.kids| && fd in View(k.kids[u]) ==> View(k.kids[u])[fd].obj != WriteEnd(e)
    ensures var f := DoAll(k, DrainOps(eol)); var n := |f.log| - 2;
            && Sound(f) && f.fds == k.fds - Keys(eol) && f.kids == k.kids && f.pipes == k.pipes
            && n == |k.log| + 1 && k.log <= f.log
            && f.log[n].op == Drain(eol.rd) && f.log[n].born == |k.kids|
            && eol.rd in f.log[n].before && f.log[n].before[eol.rd].obj == ReadEnd(e)
  {
    var ops := DrainOps(eol);
    var k1 := Do(k, Close(eol.wr));
    var k2 := Do(k1, Drain(eol.rd));
    var k3 := Do(k2, Close(eol.rd));
    assert DoAll(k, ops) == k3 by {
      assert ops[1..] == [Drain(eol.rd), Close(eol.rd)];
      assert ops[1..][1..] == [Close(eol.rd)];
      assert [Close(eol.rd)][1..] == [];
      assert DoAll(k2, [Close(eol.rd)]) == k3;
      assert DoAll(k1, ops[1..]) == k3;
    }
    DoLog(k, Close(eol.wr));
    DoLog(k1, Drain(eol.rd));
    DoLog(k2, Close(eol.rd));
  }

  /** A piece that ends in a numbered pipe: read the barrier pipe to its end. */
  lemma FinishNumbered(m: Machine, base: Table, e: nat, first: nat)
    requires Sound(m.k) && WindowOk(m) && Above(m.s.prev) && Barrier(m, base, e, first)
    requires Keys(m.s.eol) !! Keys(m.s.prev)
    requires Gone(m.k.kids, |m.k.kids|, m.k.fds - Keys(m.s.prev))
    ensures var f := Finish(m, true); var n := |f.k.log| - 2;
            && Idle(f) && f.k.fds == m.k.fds - Keys(m.s.prev) - Keys(m.s.eol)
            && f.k.kids == m.k.kids && f.k.pipes == m.k.pipes && f.s == m.s.(prev := NoEnds)
            && |m.k.log| <= n && f.k.log[n].op == Drain(m.s.eol.rd) && f.k.log[n].born == |m.k.kids|
            && m.s.eol.rd in f.k.log[n].before && f.k.log[n].before[m.s.eol.rd].obj == ReadEnd(e)
  {
    var k1 := DoAll(m.k, CloseOps(m.s.prev));
    CloseEffect(m.k, m.s.prev);
    StdStays(m.k.fds, m.s.prev, m.k.pipes);
    DrainEffect(k1, m.s.eol, e);
    var f := Finish(m, true);
    forall u | 0 <= u < |f.k.kids| && In(f.k.kids[u]).ReadEnd?
      ensures Lacks(f.k.fds, In(f.k.kids[u]).id)
    {
      assert Lacks(k1.fds, In(f.k.kids[u]).id);
    }
  }
}
