/**
 What every step of the executor keeps: which descriptors belong to which pipe variable, that
 the input pipe of an earlier child has left the shell's table, and that every fork, wait and
 drain in the history was issued under the conditions module Schedule needs.
 */
module Ownership {
  import opened Kernel
  import opened Pipes
  import opened Shell

  predicate Below(o: Obj, pipes: nat) {
    (o.ReadEnd? || o.WriteEnd?) ==> o.id < pipes
  }

  predicate IsEnd(o: Obj, id: nat) {
    o == ReadEnd(id) || o == WriteEnd(id)
  }

  ghost predicate TableOk(t: Table, pipes: nat) {
    && StdOpen(t)
    && t[0].obj.Other? && t[1].obj.Other? && t[2].obj.Other?
    && forall fd :: fd in t ==> Below(t[fd].obj, pipes)
  }

  function At(t: Table, fd: int): Obj {
    if fd in t then t[fd].obj else Other(-1)
  }

  /** What a child's program reads, writes and reports errors to. */
  function In(c: Child): Obj { At(View(c), 0) }
  function Out(c: Child): Obj { At(View(c), 1) }
  function Err(c: Child): Obj { At(View(c), 2) }

  ghost predicate Lacks(t: Table, id: nat) {
    forall fd :: fd in t ==> !IsEnd(t[fd].obj, id)
  }

  /** No end of the input pipe of any of the first n children is in t. */
  ghost predicate Gone(kids: seq<Child>, n: nat, t: Table)
    requires n <= |kids|
  {
    forall u :: 0 <= u < n && In(kids[u]).ReadEnd? ==> Lacks(t, In(kids[u]).id)
  }

  /** Children only know pipes made so far, and none holds the write end of its own input. */
  ghost predicate KidOk(c: Child, pipes: nat) {
    && (forall fd :: fd in View(c) ==> Below(View(c)[fd].obj, pipes))
    && (In(c).ReadEnd? ==> forall fd :: fd in View(c) ==> View(c)[fd].obj != WriteEnd(In(c).id))
  }

  ghost predicate KidsOk(kids: seq<Child>, pipes: nat) {
    forall u :: 0 <= u < |kids| ==> KidOk(kids[u], pipes)
  }

  /** The conditions under which the shell forks and blocks. */
  ghost predicate EventOk(kids: seq<Child>, e: Event) {
    && e.born <= |kids|
    && match e.op
       case Fork(prog) =>
         && e.born < |kids| && kids[e.born] == Child(e.before, prog)
         && Gone(kids, e.born, e.before)
       case Wait(pid) => 1 <= pid <= e.born && Gone(kids, pid, e.before)
       case Drain(fd) =>
         && fd in e.before && e.before[fd].obj.ReadEnd?
         && (forall d :: d in e.before ==> e.before[d].obj != WriteEnd(e.before[fd].obj.id))
         && (forall u, d :: 0 <= u < e.born && d in View(kids[u]) ==>
               View(kids[u])[d].obj != WriteEnd(e.before[fd].obj.id))
       case _ => true
  }

  ghost predicate LogOk(k: Proc) {
    forall j :: 0 <= j < |k.log| ==> EventOk(k.kids, k.log[j])
  }

  ghost predicate Sound(k: Proc) {
    && TableOk(k.fds, k.pipes)
    && KidsOk(k.kids, k.pipes)
    && LogOk(k)
  }

  /** The ends of the pipe p can read are in t only under p's own numbers. */
  ghost predicate Sole(t: Table, p: Ends) {
    p.rd in t && t[p.rd].obj.ReadEnd? ==>
      forall fd :: fd in t && IsEnd(t[fd].obj, t[p.rd].obj.id) ==> fd in Keys(p)
  }

  ghost predicate Holds(t: Table, p: Ends) {
    Above(p) && Keys(p) <= t.Keys && (p.rd == -1 || p.rd != p.wr)
  }

  ghost predicate WindowOk(m: Machine) {
    m.s.w0 <= m.s.w1 <= |m.k.kids| && |m.s.ring| == SIZE
  }

  /** At the head of the loop over the stages: outside prev and curr the table is base. */
  ghost predicate Loop(m: Machine, base: Table) {
    var t := m.k.fds;
    && Sound(m.k) && WindowOk(m)
    && Holds(t, m.s.prev) && Holds(t, m.s.curr)
    && Keys(m.s.prev) !! Keys(m.s.curr)
    && Sole(t, m.s.curr)
    && t - Keys(m.s.prev) - Keys(m.s.curr) == base
    && Gone(m.k.kids, |m.k.kids|, t - Keys(m.s.prev))
  }

  /** Ready to fork a stage. */
  ghost predicate Ready(m: Machine) {
    && Sound(m.k) && WindowOk(m)
    && Holds(m.k.fds, m.s.prev) && Holds(m.k.fds, m.s.curr)
    && Sole(m.k.fds, m.s.prev)
    && Gone(m.k.kids, |m.k.kids|, m.k.fds)
  }

  lemma EventGrows(kids: seq<Child>, more: seq<Child>, e: Event)
    requires EventOk(kids, e)
    ensures EventOk(kids + more, e)
  {
    var all := kids + more;
    assert forall u :: 0 <= u < |kids| ==> all[u] == kids[u];
    match e.op
    case Fork(prog) => assert Gone(all, e.born, e.before);
    case Wait(pid) => assert Gone(all, pid, e.before);
    case Drain(fd) =>
    case _ =>
  }

  /** One more operation keeps the history in order when its own conditions hold. */
  lemma DoLog(k: Proc, op: Op)
    requires LogOk(k)
    requires EventOk(Do(k, op).kids, Event(op, k.fds, |k.kids|))
    ensures LogOk(Do(k, op))
  {
    var k1 := Do(k, op);
    forall j | 0 <= j < |k1.log|
      ensures EventOk(k1.kids, k1.log[j])
    {
      if j < |k.log| {
        EventGrows(k.kids, k1.kids[|k.kids|..], k.log[j]);
        assert k1.kids == k.kids + k1.kids[|k.kids|..];
      }
    }
  }

  lemma DoOne(k: Proc, a: Op)
    ensures DoAll(k, [a]) == Do(k, a)
  {
    assert [a][1..] == [];
    assert DoAll(k, [a]) == DoAll(Do(k, a), []);
  }

  lemma DoTwo(k: Proc, a: Op, b: Op)
    ensures DoAll(k, [a, b]) == Do(Do(k, a), b)
  {
    hide Do;
    assert [a, b][1..] == [b];
    assert DoAll(k, [a, b]) == DoAll(Do(k, a), [b]);
    DoOne(Do(k, a), b);
  }

  /** Closing one number, or none. */
  lemma CloseOne(k: Proc, fd: int)
    ensures var k1 := Do(k, Close(fd));
            && k1.fds == k.fds - {fd} && k1.kids == k.kids && k1.pipes == k.pipes
            && (LogOk(k) ==> LogOk(k1))
            && |k.log| <= |k1.log| && k1.log[..|k.log|] == k.log
  {
    if LogOk(k) { DoLog(k, Close(fd)); }
  }

  lemma CloseEffect(k: Proc, p: Ends)
    ensures var k1 := DoAll(k, CloseOps(p));
            && k1.fds == k.fds - Keys(p) && k1.kids == k.kids && k1.pipes == k.pipes
            && (LogOk(k) ==> LogOk(k1))
            && |k.log| <= |k1.log| && k1.log[..|k.log|] == k.log
  {
    hide Do, LogOk;
    if p.rd != -1 { CloseOne(k, p.rd); }
    if p.wr != -1 { CloseOne(k, p.wr); }
    if p.rd != -1 && p.wr != -1 {
      var k1 := Do(k, Close(p.rd));
      CloseOne(k1, p.wr);
      DoTwo(k, Close(p.rd), Close(p.wr));
      assert CloseOps(p) == [Close(p.rd), Close(p.wr)];
      assert Do(k1, Close(p.wr)).log[..|k.log|] == Do(k1, Close(p.wr)).log[..|k1.log|][..|k.log|];
    } else if p.rd != -1 {
      DoOne(k, Close(p.rd));
      assert CloseOps(p) == [Close(p.rd)];
    } else if p.wr != -1 {
      DoOne(k, Close(p.wr));
      assert CloseOps(p) == [Close(p.wr)];
    } else {
      assert CloseOps(p) == [];
    }
  }

  /** What follows the loop over the stages neither forks nor makes pipes. */
  lemma FinishKids(m: Machine, numbered: bool)
    ensures Finish(m, numbered).k.kids == m.k.kids && Finish(m, numbered).k.pipes == m.k.pipes
  {
    hide LogOk, Apply;
    var k1 := DoAll(m.k, CloseOps(m.s.prev));
    CloseEffect(m.k, m.s.prev);
    if numbered {
      var ops := DrainOps(m.s.eol);
      assert ops[1..] == [ops[1], ops[2]] && [ops[1], ops[2]][1..] == [ops[2]] && [ops[2]][1..] == [];
      assert DoAll(k1, ops) == DoAll(Do(k1, ops[0]), [ops[1], ops[2]]);
      var k3 := Do(Do(k1, ops[0]), ops[1]);
      assert DoAll(Do(k1, ops[0]), [ops[1], ops[2]]) == DoAll(k3, [ops[2]]);
      assert DoAll(k3, [ops[2]]) == DoAll(Do(k3, ops[2]), []);
    } else {
      CloseEffect(Do(k1, Wait(m.s.w1)), m.s.curr);
    }
  }

  lemma PipeEffect(k: Proc)
    requires TableOk(k.fds, k.pipes)
    ensures var k1 := MakePipe(k); var p := NewEnds(k.fds, k.pipes);
            && 3 <= p.rd && 3 <= p.wr && p.rd != p.wr && p.rd !in k.fds && p.wr !in k.fds
            && k1.fds == k.fds[p.rd := Entry(ReadEnd(k.pipes), true)][p.wr := Entry(WriteEnd(k.pipes), true)]
            && k1.kids == k.kids && k1.pipes == k.pipes + 1 && k1.log[..|k.log|] == k.log
            && (Sound(k) ==> Sound(k1))
  {
    var t1 := k.fds[LowestFree(k.fds) := Entry(ReadEnd(k.pipes), true)];
    assert 0 in k.fds && 1 in k.fds && 2 in k.fds;
    if Sound(k) {
      DoLog(k, Pipe2(k.pipes));
      var k1 := MakePipe(k);
      forall u | 0 <= u < |k1.kids|
        ensures KidOk(k1.kids[u], k1.pipes)
      {
        assert KidOk(k.kids[u], k.pipes);
      }
    }
  }
}
