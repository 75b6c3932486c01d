/** The steps of one stage keep the invariants of module Ownership. */
module Stages {
  import opened Kernel
  import opened Pipes
  import opened Shell
  import opened Ownership

  lemma StdStays(t: Table, p: Ends, pipes: nat)
    requires TableOk(t, pipes) && Above(p)
    ensures TableOk(t - Keys(p), pipes)
  {
  }

  /** Closing the previous pipe and moving on to the current one. */
  lemma ShiftOk(m: Machine, base: Table)
    requires Loop(m, base)
    ensures var m1 := Shift(m); var t1 := m1.k.fds;
            && Ready(m1) && m1.s == m.s.(prev := m.s.curr)
            && m1.k.kids == m.k.kids && m1.k.pipes == m.k.pipes
            && t1 == m.k.fds - Keys(m.s.prev) && t1 - Keys(m1.s.prev) == base
  {
    var m1 := Shift(m);
    CloseEffect(m.k, m.s.prev);
    StdStays(m.k.fds, m.s.prev, m.k.pipes);
    var t := m.k.fds;
    var t1 := t - Keys(m.s.prev);
    assert Keys(m.s.curr) <= t1.Keys;
    assert forall fd :: fd in t1 ==> t1[fd] == t[fd];
    assert Sole(t1, m.s.curr);
  }

  /** A new pipe for the next stage leaves the previous one alone. */
  lemma NewPipeOk(m: Machine)
    requires Ready(m)
    ensures var m1 := Connect(m, Via(PipeTo)); var t1 := m1.k.fds; var p := m1.s.curr;
            && Ready(m1) && m1.s == m.s.(curr := p) && m1.k.kids == m.k.kids
            && Keys(p) == {p.rd, p.wr} && Keys(p) !! m.k.fds.Keys && p == NewEnds(m.k.fds, m.k.pipes)
            && t1 == m.k.fds[p.rd := Entry(ReadEnd(m.k.pipes), true)][p.wr := Entry(WriteEnd(m.k.pipes), true)]
            && m1.k.pipes == m.k.pipes + 1
            && Sole(t1, p)
  {
    PipeEffect(m.k);
    var m1 := Connect(m, Via(PipeTo));
    forall u | 0 <= u < |m.k.kids| && In(m.k.kids[u]).ReadEnd?
      ensures Lacks(m1.k.fds, In(m.k.kids[u]).id)
    {
      assert KidOk(m.k.kids[u], m.k.pipes);
      assert Lacks(m.k.fds, In(m.k.kids[u]).id);
    }
  }

  lemma NewFileOk(m: Machine, name: string)
    requires Ready(m)
    ensures var m1 := Connect(m, Via(FileTo(name))); var p := m1.s.curr;
            && Ready(m1) && m1.s == m.s.(curr := p) && m1.k.kids == m.k.kids
            && p.rd == -1 && 3 <= p.wr && p.wr !in m.k.fds
            && m1.k.fds == m.k.fds[p.wr := Entry(File(name), false)]
            && m1.k.pipes == m.k.pipes
  {
    assert 0 in m.k.fds && 1 in m.k.fds && 2 in m.k.fds;
    DoLog(m.k, Open(name));
    var m1 := Connect(m, Via(FileTo(name)));
    forall u | 0 <= u < |m.k.kids| && In(m.k.kids[u]).ReadEnd?
      ensures Lacks(m1.k.fds, In(m.k.kids[u]).id)
    {
      assert Lacks(m.k.fds, In(m.k.kids[u]).id);
    }
  }

  /** What the child forked in state m runs with. */
  lemma SpawnView(t: Table, pipes: nat, prev: Ends, curr: Ends, err: bool, argv: seq<string>)
    requires TableOk(t, pipes) && Holds(t, prev) && Holds(t, curr) && Sole(t, prev)
    ensures var c := Child(t, ChildProgram(prev, curr, err, argv));
            && View(c) == ExecTable(t, prev, curr, err)
            && In(c) == StdinOf(t, prev)
            && Out(c) == OutputOf(t, prev, curr, 1)
            && Err(c) == (if err then OutputOf(t, prev, curr, 2) else t[2].obj)
            && KidOk(c, pipes)
  {
    ChildView(t, prev, curr, err, argv);
  }

  /** Forking keeps everything, and the new child's own input leaves the table with prev. */
  lemma SpawnOk(m: Machine, err: bool, argv: seq<string>)
    requires Ready(m)
    ensures var m1 := Spawn(m, err, argv); var c := Child(m.k.fds, ChildProgram(m.s.prev, m.s.curr, err, argv));
            && Sound(m1.k) && WindowOk(m1)
            && m1.k.kids == m.k.kids + [c] && m1.k.fds == m.k.fds && m1.k.pipes == m.k.pipes
            && m1.s == m.s.(w0 := m.s.w1, w1 := |m1.k.kids|)
            && Gone(m1.k.kids, |m1.k.kids|, m.k.fds - Keys(m.s.prev))
  {
    var prog := ChildProgram(m.s.prev, m.s.curr, err, argv);
    var c := Child(m.k.fds, prog);
    SpawnView(m.k.fds, m.k.pipes, m.s.prev, m.s.curr, err, argv);
    var k1 := Do(m.k, Fork(prog));
    assert forall u :: 0 <= u < |m.k.kids| ==> k1.kids[u] == m.k.kids[u];
    assert Gone(k1.kids, |m.k.kids|, m.k.fds);
    DoLog(m.k, Fork(prog));
    if m.s.w0 != 0 {
      DoLog(k1, Wait(m.s.w0));
    }
    var t1 := m.k.fds - Keys(m.s.prev);
    forall u | 0 <= u < |k1.kids| && In(k1.kids[u]).ReadEnd?
      ensures Lacks(t1, In(k1.kids[u]).id)
    {
      if u < |m.k.kids| {
        assert Lacks(m.k.fds, In(m.k.kids[u]).id);
      }
    }
  }

  predicate Ordinary(link: Link) {
    link.Via? && (link.c.PipeTo? || link.c.FileTo?)
  }

  /** A stage followed by an ordinary connector restores the loop invariant. */
  lemma StageOk(m: Machine, base: Table, link: Link, argv: seq<string>)
    requires Loop(m, base) && Ordinary(link)
    ensures Loop(Stage(m, link, argv), base)
  {
    ShiftOk(m, base);
    var m1 := Shift(m);
    var m2 := Connect(m1, link);
    if link.c.PipeTo? { NewPipeOk(m1); } else { NewFileOk(m1, link.c.name); }
    assert m2.k.fds - Keys(m2.s.prev) - Keys(m2.s.curr) == m1.k.fds - Keys(m1.s.prev);
    SpawnOk(m2, PipeError(link), argv);
  }

}
