/** What each forked program reads and writes, and that later forks never change it. */
module Wiring {
  import opened Kernel
  import opened Pipes
  import opened Shell
  import opened Ownership
  import opened Stages
  import opened Pieces

  /** The children whose standard output is pipe id. */
  ghost function Feeders(kids: seq<Child>, id: nat): set<nat> {
    set u: nat | u < |kids| && Out(kids[u]) == WriteEnd(id)
  }

  /** Child i reads exactly what the children in ws write, and is the only one to read it; it
      keeps the shell's standard input when ws is empty. */
  ghost predicate Fed(kids: seq<Child>, i: nat, ws: set<nat>) {
    && i < |kids|
    && if ws == {} then In(kids[i]) == Other(0)
       else
         && In(kids[i]).ReadEnd?
         && Feeders(kids, In(kids[i]).id) == ws
         && forall u :: 0 <= u < |kids| && In(kids[u]) == In(kids[i]) ==> u == i
  }

  /** Where a stage's output and error go, by the connector behind it; and that its program
      starts with the three standard descriptors and no others. */
  ghost predicate Aimed(c: Child, link: Link) {
    && View(c).Keys == {0, 1, 2}
    && match link
       case NoLink => Out(c) == Other(1) && Err(c) == Other(2)
       case Via(FileTo(name)) => Out(c) == File(name) && Err(c) == Other(2)
       case Via(PipeTo) => Out(c).WriteEnd? && Err(c) == Other(2)
       case Via(Numbered(_, err)) => Out(c).WriteEnd? && Err(c) == if err then Out(c) else Other(2)
       case _ => true
  }

  ghost predicate StdIs(t: Table) {
    && 0 in t && 1 in t && 2 in t
    && t[0].obj == Other(0) && t[1].obj == Other(1) && t[2].obj == Other(2)
  }

  /** Nothing but the standard descriptors survives exec. */
  ghost predicate Quiet(t: Table) {
    forall fd :: fd in t && 3 <= fd ==> t[fd].cloexec
  }

  /** The pipe variable p offers the next stage what the children in ws write. */
  ghost predicate Offers(t: Table, p: Ends, kids: seq<Child>, ws: set<nat>) {
    if ws == {} then p.rd == -1
    else p.rd in t && t[p.rd].obj.ReadEnd? && Feeders(kids, t[p.rd].obj.id) == ws
  }

  lemma FeedersGrow(kids: seq<Child>, c: Child, id: nat)
    ensures Feeders(kids + [c], id) == Feeders(kids, id) + if Out(c) == WriteEnd(id) then {|kids|} else {}
  {
    var all := kids + [c];
    assert forall u :: 0 <= u < |kids| ==> all[u] == kids[u];
  }

  /** What a child reads and writes are objects of the table it was forked with. */
  ghost predicate Drawn(c: Child) {
    && (In(c).ReadEnd? ==> exists fd :: fd in c.table && c.table[fd].obj == In(c))
    && (Out(c).WriteEnd? ==> exists fd :: fd in c.table && c.table[fd].obj == Out(c))
  }

  /** A new child cannot join a pipe some earlier child already reads. */
  lemma FedStays(kids: seq<Child>, c: Child, i: nat, ws: set<nat>)
    requires Gone(kids, |kids|, c.table) && Drawn(c) && Fed(kids, i, ws)
    ensures Fed(kids + [c], i, ws)
  {
    var all := kids + [c];
    assert forall u :: 0 <= u < |kids| ==> all[u] == kids[u];
    if ws != {} {
      assert Lacks(c.table, In(kids[i]).id);
      FeedersGrow(kids, c, In(kids[i]).id);
    }
  }

  ghost predicate Keeps(kids: seq<Child>, kids': seq<Child>) {
    forall i, ws :: Fed(kids, i, ws) ==> Fed(kids', i, ws)
  }

  /** The state just before a stage's fork. */
  ghost predicate Poised(m: Machine, kids: seq<Child>, ws: set<nat>) {
    && Ready(m) && StdIs(m.k.fds) && m.k.kids == kids
    && Quiet(m.k.fds - Keys(m.s.prev) - Keys(m.s.curr))
    && Offers(m.k.fds, m.s.prev, kids, ws)
  }

  lemma QuietExec(t: Table, prev: Ends, curr: Ends, err: bool)
    requires StdOpen(t) && Quiet(t - Keys(prev) - Keys(curr))
    ensures ExecTable(t, prev, curr, err).Keys == {0, 1, 2}
  {
    var r := ExecTable(t, prev, curr, err);
    forall fd
      ensures fd in r <==> fd in {0, 1, 2}
    {
      if 3 <= fd && fd in t && fd !in Keys(prev) + Keys(curr) {
        assert fd in t - Keys(prev) - Keys(curr);
      }
    }
  }

  /** A fork changes nobody's reading. */
  lemma SpawnKeeps(m: Machine, err: bool, argv: seq<string>)
    requires Ready(m) && StdIs(m.k.fds)
    ensures m.k.kids <= Spawn(m, err, argv).k.kids && Keeps(m.k.kids, Spawn(m, err, argv).k.kids)
  {
    var t := m.k.fds;
    var c := Child(t, ChildProgram(m.s.prev, m.s.curr, err, argv));
    SpawnOk(m, err, argv);
    SpawnView(t, m.k.pipes, m.s.prev, m.s.curr, err, argv);
    assert Drawn(c) by {
      assert In(c).ReadEnd? ==> m.s.prev.rd in t;
      assert Out(c).WriteEnd? ==> m.s.curr.wr in t;
    }
    hide Fed, Drawn, View;
    forall i, ws | Fed(m.k.kids, i, ws)
      ensures Fed(m.k.kids + [c], i, ws)
    {
      FedStays(m.k.kids, c, i, ws);
    }
  }

  /** The child of a fork in state m reads what prev offers, alone. */
  lemma SpawnFed(m: Machine, err: bool, ws: set<nat>, argv: seq<string>)
    requires Ready(m) && StdIs(m.k.fds) && Offers(m.k.fds, m.s.prev, m.k.kids, ws)
    ensures Fed(Spawn(m, err, argv).k.kids, |m.k.kids|, ws)
  {
    var t := m.k.fds;
    var c := Child(t, ChildProgram(m.s.prev, m.s.curr, err, argv));
    SpawnOk(m, err, argv);
    SpawnView(t, m.k.pipes, m.s.prev, m.s.curr, err, argv);
    if ws != {} {
      FeedersGrow(m.k.kids, c, In(c).id);
      assert Out(c) != WriteEnd(In(c).id);
      forall u | 0 <= u < |m.k.kids|
        ensures In(m.k.kids[u]) != In(c)
      {
        assert In(m.k.kids[u]).ReadEnd? ==> Lacks(t, In(m.k.kids[u]).id);
      }
    }
  }

  /** The child of a fork in state m: what it reads is what prev offers. */
  lemma SpawnWires(m: Machine, err: bool, ws: set<nat>, argv: seq<string>)
    requires Poised(m, m.k.kids, ws)
    ensures Spawn(m, err, argv).k.fds == m.k.fds && Spawn(m, err, argv).s.curr == m.s.curr
    ensures m.k.kids <= Spawn(m, err, argv).k.kids
    ensures var kids := Spawn(m, err, argv).k.kids; var i := |m.k.kids|; var c := kids[i];
            && |kids| == i + 1 && Fed(kids, i, ws) && View(c).Keys == {0, 1, 2}
            && Out(c) == OutputOf(m.k.fds, m.s.prev, m.s.curr, 1)
            && Err(c) == (if err then OutputOf(m.k.fds, m.s.prev, m.s.curr, 2) else Other(2))
            && Keeps(m.k.kids, kids)
  {
    hide Fed, Keeps;
    SpawnOk(m, err, argv);
    SpawnView(m.k.fds, m.k.pipes, m.s.prev, m.s.curr, err, argv);
    QuietExec(m.k.fds, m.s.prev, m.s.curr, err);
    SpawnKeeps(m, err, argv);
    SpawnFed(m, err, ws, argv);
  }

  /** The children expected to write what stage j of a piece reads; the piece's first child is
      number first, and ws0 write what its first stage reads. */
  function WritersAt(first: nat, cmds: seq<Command>, ws0: set<nat>, j: nat): set<nat> {
    if j == 0 then ws0
    else if LinkOf(cmds, j - 1) == Via(PipeTo) then {first + j - 1} else {}
  }

  /** The first j stages of a piece are connected as its command line says. */
  ghost predicate StagesFed(kids: seq<Child>, first: nat, cmds: seq<Command>, ws0: set<nat>, j: nat) {
    && first + j <= |kids|
    && forall i :: 0 <= i < j ==>
         Fed(kids, first + i, WritersAt(first, cmds, ws0, i)) && Aimed(kids[first + i], LinkOf(cmds, i))
  }

  /** Children from first on write only pipes numbered pipes and above. */
  ghost predicate WriteNew(kids: seq<Child>, first: nat, pipes: nat) {
    forall u :: first <= u < |kids| && Out(kids[u]).WriteEnd? ==> pipes <= Out(kids[u]).id
  }

  ghost predicate Woven(m0: Machine, m: Machine, cmds: seq<Command>, ws0: set<nat>, j: nat) {
    && StagesFed(m.k.kids, |m0.k.kids|, cmds, ws0, j)
    && Keeps(m0.k.kids, m.k.kids)
    && StdIs(m.k.fds)
    && WriteNew(m.k.kids, |m0.k.kids|, m0.k.pipes)
    && Offers(m.k.fds, m.s.curr, m.k.kids, WritersAt(|m0.k.kids|, cmds, ws0, j))
  }

  lemma FreshFeeders(kids: seq<Child>, pipes: nat)
    requires KidsOk(kids, pipes)
    ensures Feeders(kids, pipes) == {}
  {
    forall u | 0 <= u < |kids|
      ensures Out(kids[u]) != WriteEnd(pipes)
    {
      assert KidOk(kids[u], pipes);
    }
  }

  lemma ShiftPoised(m: Machine, base: Table, ws: set<nat>)
    requires Loop(m, base) && Quiet(base) && StdIs(m.k.fds) && Offers(m.k.fds, m.s.curr, m.k.kids, ws)
    ensures Poised(Shift(m), m.k.kids, ws) && Shift(m).k.pipes == m.k.pipes
    ensures Shift(m).k.fds - Keys(Shift(m).s.prev) == base
  {
    ShiftOk(m, base);
    assert base - Keys(m.s.curr) == base;
  }

  /** Making the connector of an ordinary stage. */
  lemma LinkPoised(m: Machine, base: Table, ws: set<nat>, link: Link)
    requires Poised(m, m.k.kids, ws) && Ordinary(link) && m.k.fds - Keys(m.s.prev) == base && Quiet(base)
    ensures var m1 := Connect(m, link); var p := m1.s.curr;
            && Poised(m1, m.k.kids, ws) && p.wr in m1.k.fds && p.wr !in Keys(m1.s.prev)
            && (link.c.PipeTo? ==> p.rd in m1.k.fds && m1.k.fds[p.rd].obj == ReadEnd(m.k.pipes)
                                   && m1.k.fds[p.wr].obj == WriteEnd(m.k.pipes))
            && (link.c.FileTo? ==> p.rd == -1 && m1.k.fds[p.wr].obj == File(link.c.name))
  {
    var m1 := Connect(m, link);
    if link.c.PipeTo? { NewPipeOk(m); } else { NewFileOk(m, link.c.name); }
    assert m1.k.fds - Keys(m1.s.prev) - Keys(m1.s.curr) == base;
  }

  lemma FedGrows(kids: seq<Child>, kids': seq<Child>, first: nat, cmds: seq<Command>, ws0: set<nat>, j: nat)
    requires StagesFed(kids, first, cmds, ws0, j) && Keeps(kids, kids') && kids <= kids'
    requires |kids| == first + j && first + j < |kids'|
    requires Fed(kids', first + j, WritersAt(first, cmds, ws0, j)) && Aimed(kids'[first + j], LinkOf(cmds, j))
    ensures StagesFed(kids', first, cmds, ws0, j + 1)
  {
    hide Fed, Aimed;
    forall i | 0 <= i < j + 1
      ensures Fed(kids', first + i, WritersAt(first, cmds, ws0, i)) && Aimed(kids'[first + i], LinkOf(cmds, i))
    {
      if i < j {
        assert Fed(kids, first + i, WritersAt(first, cmds, ws0, i));
        assert kids[first + i] == kids'[first + i];
      }
    }
  }

  /** The effect of one stage on the connections. */
  ghost predicate StageWired(m: Machine, r: Machine, link: Link, ws: set<nat>, next: set<nat>) {
    var n := |m.k.kids|;
    && |r.k.kids| == n + 1 && m.k.kids <= r.k.kids
    && Fed(r.k.kids, n, ws) && Aimed(r.k.kids[n], link)
    && Keeps(m.k.kids, r.k.kids)
    && StdIs(r.k.fds)
    && (Out(r.k.kids[n]).WriteEnd? ==> m.k.pipes <= Out(r.k.kids[n]).id)
    && Offers(r.k.fds, r.s.curr, r.k.kids, next)
  }

  lemma LoopKids(m: Machine, base: Table)
    requires Loop(m, base)
    ensures KidsOk(m.k.kids, m.k.pipes)
  {
  }

  lemma StageWires(m: Machine, base: Table, ws: set<nat>, link: Link, argv: seq<string>)
    requires Loop(m, base) && Quiet(base) && StdIs(m.k.fds) && Offers(m.k.fds, m.s.curr, m.k.kids, ws)
    requires |m.s.ring| == SIZE && Ordinary(link)
    ensures StageWired(m, Stage(m, link, argv), link, ws, if link.c.PipeTo? then {|m.k.kids|} else {})
  {
    hide Fed, Keeps, Loop, Quiet, Gone, Ready, Sound, TableOk;
    ShiftPoised(m, base, ws);
    var m1 := Shift(m);
    LinkPoised(m1, base, ws, link);
    var m2 := Connect(m1, link);
    SpawnWires(m2, PipeError(link), ws, argv);
    var r := Spawn(m2, PipeError(link), argv);
    if link.c.PipeTo? {
      assert KidsOk(m1.k.kids, m1.k.pipes) by { LoopKids(m, base); }
      FreshFeeders(m1.k.kids, m1.k.pipes);
      FeedersGrow(m1.k.kids, r.k.kids[|m1.k.kids|], m1.k.pipes);
    }
  }

  lemma WovenNext(m0: Machine, m: Machine, r: Machine, cmds: seq<Command>, ws0: set<nat>, j: nat, next: set<nat>)
    requires Woven(m0, m, cmds, ws0, j) && |m.k.kids| == |m0.k.kids| + j && m0.k.pipes <= m.k.pipes
    requires StageWired(m, r, LinkOf(cmds, j), WritersAt(|m0.k.kids|, cmds, ws0, j), next)
    requires next == WritersAt(|m0.k.kids|, cmds, ws0, j + 1)
    ensures Woven(m0, r, cmds, ws0, j + 1)
  {
    hide Fed, Keeps, Offers, StdIs, Aimed, LinkOf, WritersAt, View;
    FedGrows(m.k.kids, r.k.kids, |m0.k.kids|, cmds, ws0, j);
    KeepsTrans(m0.k.kids, m.k.kids, r.k.kids);
    forall u | |m0.k.kids| <= u < |r.k.kids| && Out(r.k.kids[u]).WriteEnd?
      ensures m0.k.pipes <= Out(r.k.kids[u]).id
    {
      assert u < |m.k.kids| ==> r.k.kids[u] == m.k.kids[u];
    }
  }

  lemma WeaveStage(m0: Machine, m: Machine, base: Table, e: nat, cmds: seq<Command>, ws0: set<nat>, j: nat)
    requires Going(m0, m, base, e, j) && Woven(m0, m, cmds, ws0, j) && Quiet(base)
    requires Ordinary(LinkOf(cmds, j))
    ensures Woven(m0, Stage(m, LinkOf(cmds, j), ArgvOf(cmds, j)), cmds, ws0, j + 1)
  {
    hide Barrier, Keeps, Quiet, StagesFed, WriteNew, Offers, StdIs, StageWired, Stage, Sound, Gone, Holds, Sole, LinkOf;
    var link := LinkOf(cmds, j);
    var next: set<nat> := if link.c.PipeTo? then {|m.k.kids|} else {};
    StageWires(m, base, WritersAt(|m0.k.kids|, cmds, ws0, j), link, ArgvOf(cmds, j));
    WovenNext(m0, m, Stage(m, link, ArgvOf(cmds, j)), cmds, ws0, j, next);
  }

  lemma KeepsTrans(a: seq<Child>, b: seq<Child>, c: seq<Child>)
    requires Keeps(a, b) && Keeps(b, c)
    ensures Keeps(a, c)
  {
  }
}
