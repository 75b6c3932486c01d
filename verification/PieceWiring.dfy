/** How the stages of one piece are connected, and what the piece adds to the delayed pipes. */
module PieceWiring {
  import opened Kernel
  import opened Pipes
  import opened Shell
  import opened Ownership
  import opened Stages
  import opened Pieces
  import opened PieceRuns
  import opened Wiring

  /** The last stage of a piece, with nothing or a numbered pipe behind it. */
  ghost predicate LastWired(m: Machine, r: Machine, link: Link, ws: set<nat>) {
    var n := |m.k.kids|;
    && |r.k.kids| == n + 1 && m.k.kids <= r.k.kids
    && Fed(r.k.kids, n, ws) && Aimed(r.k.kids[n], link)
    && Keeps(m.k.kids, r.k.kids)
    && StdIs(r.k.fds)
  }

  lemma OpenWires(m: Machine, base: Table, ws: set<nat>, argv: seq<string>)
    requires |m.s.ring| == SIZE && Loop(m, base) && Quiet(base) && StdIs(m.k.fds)
    requires Offers(m.k.fds, m.s.curr, m.k.kids, ws)
    ensures LastWired(m, Stage(m, NoLink, argv), NoLink, ws)
  {
    hide Fed, Keeps, Quiet, Gone, Loop;
    ShiftPoised(m, base, ws);
    var m1 := Shift(m);
    SpawnWires(m1, false, ws, argv);
  }

  /** The pipe a numbered connector writes to: the one its slot names, or the next new one. */
  ghost function NumberedId(m: Machine, n: int): nat
    requires |m.s.ring| == SIZE
  {
    var p := m.s.ring[Slot(m.s.head, n)];
    if p != NoEnds && p.wr in m.k.fds && m.k.fds[p.wr].obj.WriteEnd? then m.k.fds[p.wr].obj.id else m.k.pipes
  }

  lemma NumberedPoised(m: Machine, base: Table, ws: set<nat>, n: int, err: bool)
    requires |m.s.ring| == SIZE && Poised(m, m.k.kids, ws) && m.k.fds - Keys(m.s.prev) == base && Quiet(base)
    requires var p := m.s.ring[Slot(m.s.head, n)];
             p == NoEnds || (p.wr in base && Holds(base, p) && base[p.wr].obj.WriteEnd?)
    ensures var m1 := Connect(m, Via(Numbered(n, err))); var p := m1.s.curr;
            && Poised(m1, m.k.kids, ws) && p.wr in m1.k.fds && p.wr !in Keys(m1.s.prev)
            && m1.k.fds[p.wr].obj == WriteEnd(NumberedId(m, n))
  {
    var m1 := Connect(m, Via(Numbered(n, err)));
    if m.s.ring[Slot(m.s.head, n)] == NoEnds {
      NewPipeOk(m);
      assert m1.k == Connect(m, Via(PipeTo)).k;
      assert m1.k.fds - Keys(m1.s.prev) - Keys(m1.s.curr) == base;
    } else {
      assert m1.k.fds - Keys(m1.s.prev) - Keys(m1.s.curr) == base - Keys(m1.s.curr);
    }
  }

  lemma NumberedWires(m: Machine, base: Table, ws: set<nat>, n: int, err: bool, argv: seq<string>)
    requires |m.s.ring| == SIZE && Loop(m, base) && Quiet(base) && StdIs(m.k.fds)
    requires Offers(m.k.fds, m.s.curr, m.k.kids, ws)
    requires var p := m.s.ring[Slot(m.s.head, n)];
             p == NoEnds || (p.wr in base && Holds(base, p) && base[p.wr].obj.WriteEnd?)
    ensures var link := Via(Numbered(n, err)); var r := Stage(m, link, argv);
            LastWired(m, r, link, ws) && Out(r.k.kids[|m.k.kids|]) == WriteEnd(NumberedId(Shift(m), n))
  {
    hide Fed, Keeps, Loop, Quiet, Gone, Ready, Sound, TableOk;
    ShiftPoised(m, base, ws);
    var m1 := Shift(m);
    NumberedPoised(m1, base, ws, n, err);
    SpawnWires(Connect(m1, Via(Numbered(n, err))), err, ws, argv);
  }

  lemma {:induction false} WeaveStages(m: Machine, base: Table, e: nat, cmds: seq<Command>, ws0: set<nat>, j: nat)
    requires |m.s.ring| == SIZE && Going(m, m, base, e, 0) && Quiet(base) && AllOrdinary(cmds, j)
    requires Woven(m, m, cmds, ws0, 0)
    ensures Woven(m, AfterStages(m, cmds, j), cmds, ws0, j)
  {
    hide Going, Woven, Quiet, Stage;
    if j > 0 {
      WeaveStages(m, base, e, cmds, ws0, j - 1);
      StagesOk(m, cmds, j - 1, base, e);
      WeaveStage(m, AfterStages(m, cmds, j - 1), base, e, cmds, ws0, j - 1);
    }
  }

  /** The state in which the loop over the stages starts. */
  lemma BeginWoven(m: Machine, cmds: seq<Command>, ws0: set<nat>)
    requires Idle(m) && FrontOk(m) && Quiet(m.k.fds) && StdIs(m.k.fds)
    requires Offers(m.k.fds, Front(m), m.k.kids, ws0)
    ensures var m1 := Begin(m); Woven(m1, m1, cmds, ws0, 0) && Quiet(m1.k.fds - Keys(Front(m)))
    ensures Begin(m).k.kids == m.k.kids && Begin(m).k.pipes == m.k.pipes + 1
  {
    BeginOk(m);
  }

  lemma WovenOffers(m0: Machine, m: Machine, cmds: seq<Command>, ws0: set<nat>, j: nat)
    requires Woven(m0, m, cmds, ws0, j)
    ensures StdIs(m.k.fds) && Offers(m.k.fds, m.s.curr, m.k.kids, WritersAt(|m0.k.kids|, cmds, ws0, j))
  {
  }

  /** All stages connected. */
  ghost predicate LoopWired(m: Machine, r: Machine, cmds: seq<Command>, ws0: set<nat>, n: nat) {
    StagesFed(r.k.kids, |m.k.kids|, cmds, ws0, n) && Keeps(m.k.kids, r.k.kids)
  }

  /** Adding the last stage completes a piece. */
  lemma LastFed(m0: Machine, m: Machine, r: Machine, cmds: seq<Command>, ws0: set<nat>, j: nat)
    requires Woven(m0, m, cmds, ws0, j) && |m.k.kids| == |m0.k.kids| + j
    requires LastWired(m, r, LinkOf(cmds, j), WritersAt(|m0.k.kids|, cmds, ws0, j))
    ensures LoopWired(m0, r, cmds, ws0, j + 1)
  {
    hide Fed, Aimed, Keeps, Offers;
    FedGrows(m.k.kids, r.k.kids, |m0.k.kids|, cmds, ws0, j);
    KeepsTrans(m0.k.kids, m.k.kids, r.k.kids);
  }

  lemma OpenNew(m0: Machine, m: Machine, r: Machine, cmds: seq<Command>, ws0: set<nat>, j: nat)
    requires Woven(m0, m, cmds, ws0, j) && |m.k.kids| == |m0.k.kids| + j
    requires LastWired(m, r, NoLink, WritersAt(|m0.k.kids|, cmds, ws0, j))
    ensures WriteNew(r.k.kids, |m0.k.kids|, m0.k.pipes)
  {
    hide Fed, Keeps, Offers, StdIs, StagesFed, View, WritersAt;
    forall u | |m0.k.kids| <= u < |r.k.kids| && Out(r.k.kids[u]).WriteEnd?
      ensures m0.k.pipes <= Out(r.k.kids[u]).id
    {
      assert u < |m.k.kids| ==> r.k.kids[u] == m.k.kids[u];
    }
  }

  lemma OpenLoop(m: Machine, base: Table, e: nat, cmds: seq<Command>, ws0: set<nat>, n: nat)
    requires |m.s.ring| == SIZE && Going(m, m, base, e, 0) && Quiet(base) && Woven(m, m, cmds, ws0, 0)
    requires 0 < n && AllOrdinary(cmds, n - 1) && LinkOf(cmds, n - 1) == NoLink
    ensures LoopWired(m, AfterStages(m, cmds, n), cmds, ws0, n)
    ensures WriteNew(AfterStages(m, cmds, n).k.kids, |m.k.kids|, m.k.pipes)
  {
    hide LinkOf, Stage, Quiet, StdIs, Offers, Woven, WritersAt, LoopWired, Loop, Barrier, LastWired, AllOrdinary;
    var last := AfterStages(m, cmds, n - 1);
    WeaveStages(m, base, e, cmds, ws0, n - 1);
    StagesOk(m, cmds, n - 1, base, e);
    WovenOffers(m, last, cmds, ws0, n - 1);
    OpenWires(last, base, WritersAt(|m.k.kids|, cmds, ws0, n - 1), ArgvOf(cmds, n - 1));
    LastFed(m, last, Stage(last, NoLink, ArgvOf(cmds, n - 1)), cmds, ws0, n - 1);
    OpenNew(m, last, Stage(last, NoLink, ArgvOf(cmds, n - 1)), cmds, ws0, n - 1);
  }

  lemma PlainLoop(m: Machine, cmds: seq<Command>, ws0: set<nat>)
    requires Idle(m) && FrontOk(m) && Alternating(cmds) && NoUser(cmds) && !EndsNumbered(cmds)
    requires Quiet(m.k.fds) && StdIs(m.k.fds) && Offers(m.k.fds, Front(m), m.k.kids, ws0)
    ensures var r := AfterStages(Begin(m), cmds, StageCount(cmds));
            LoopWired(m, r, cmds, ws0, StageCount(cmds)) && WriteNew(r.k.kids, |m.k.kids|, m.k.pipes)
  {
    BeginGoing(m);
    BeginWoven(m, cmds, ws0);
    LinksOk(cmds);
    hide Quiet, StdIs, Offers, FrontOk, Keeps, Going, Woven, Stage, AfterStages, Fed, Aimed, Alternating, NoUser, AllOrdinary, LinkOf;
    var m1 := Begin(m);
    var base := m1.k.fds - Keys(Front(m));
    var n := StageCount(cmds);
    if |cmds| % 2 == 1 {
      OpenLoop(m1, base, m.k.pipes, cmds, ws0, n);
    } else {
      WeaveStages(m1, base, m.k.pipes, cmds, ws0, n);
      WovenWired(m1, AfterStages(m1, cmds, n), cmds, ws0, n);
    }
  }

  lemma WovenWired(m: Machine, r: Machine, cmds: seq<Command>, ws0: set<nat>, n: nat)
    requires Woven(m, r, cmds, ws0, n)
    ensures LoopWired(m, r, cmds, ws0, n) && WriteNew(r.k.kids, |m.k.kids|, m.k.pipes)
  {
  }

  /** A piece that does not end in a numbered pipe. */
  lemma PlainWires(m: Machine, cmds: seq<Command>, ws0: set<nat>)
    requires Idle(m) && FrontOk(m) && Alternating(cmds) && NoUser(cmds) && !EndsNumbered(cmds)
    requires Quiet(m.k.fds) && StdIs(m.k.fds) && Offers(m.k.fds, Front(m), m.k.kids, ws0)
    ensures LoopWired(m, RunPiece(m, cmds), cmds, ws0, StageCount(cmds))
    ensures WriteNew(RunPiece(m, cmds).k.kids, |m.k.kids|, m.k.pipes)
  {
    PlainLoop(m, cmds, ws0);
    FinishKids(AfterStages(Begin(m), cmds, StageCount(cmds)), false);
  }

  /** The last child of a piece ending in a numbered pipe, and where it writes. */
  ghost predicate NumberedWired(m: Machine, last: Machine, r: Machine, cmds: seq<Command>, ws0: set<nat>, id: nat) {
    && LoopWired(m, r, cmds, ws0, StageCount(cmds))
    && m.k.kids <= last.k.kids <= r.k.kids && |r.k.kids| == |last.k.kids| + 1
    && WriteNew(last.k.kids, |m.k.kids|, m.k.pipes)
    && KidsOk(last.k.kids, last.k.pipes) && m.k.pipes <= last.k.pipes
    && Out(r.k.kids[|last.k.kids|]) == WriteEnd(id)
  }

  /** A piece whose target slot is empty makes the pipe it writes to last of all. */
  ghost predicate MadeLast(m: Machine, last: Machine, r: Machine, n: int)
    requires |m.s.ring| == SIZE
  {
    m.s.ring[Slot(m.s.head, n + 1)] == NoEnds ==> r.k.pipes == last.k.pipes + 1
  }

  /** The last stage of a piece ending in a numbered pipe is about to start in state last. */
  ghost predicate AtLast(m: Machine, last: Machine, base: Table, cmds: seq<Command>, ws0: set<nat>)
    requires EndsNumbered(cmds) && |m.s.ring| == SIZE
  {
    var c := cmds[|cmds| - 1];
    var p := m.s.ring[Slot(m.s.head, c.n + 1)];
    && 0 < StageCount(cmds) && Begun(m, Begin(m))
    && Going(Begin(m), last, base, m.k.pipes, StageCount(cmds) - 1) && Quiet(base)
    && Woven(Begin(m), last, cmds, ws0, StageCount(cmds) - 1)
    && last.s.ring == m.s.ring && Slot(last.s.head, c.n) == Slot(m.s.head, c.n + 1)
    && (p == NoEnds || (p.wr in base && p.wr in m.k.fds && Holds(base, p)
                        && base[p.wr] == m.k.fds[p.wr] && base[p.wr].obj.WriteEnd?))
  }

  lemma NumberedLoop(m: Machine, last: Machine, base: Table, cmds: seq<Command>, ws0: set<nat>)
    requires EndsNumbered(cmds) && |m.s.ring| == SIZE == |last.s.ring| && AtLast(m, last, base, cmds, ws0)
    requires LinkOf(cmds, StageCount(cmds) - 1) == Via(cmds[|cmds| - 1])
    ensures var c := cmds[|cmds| - 1];
            NumberedWired(m, last, Stage(last, Via(c), ArgvOf(cmds, StageCount(cmds) - 1)), cmds, ws0, NumberedId(Shift(last), c.n))
  {
    hide StdIs, Offers, WritersAt, Aimed, Fed, Keeps, Quiet, Stage, LinkOf, Slot, Begin;
    var c := cmds[|cmds| - 1];
    var j := StageCount(cmds) - 1;
    var m1 := Begin(m);
    WovenOffers(m1, last, cmds, ws0, j);
    NumberedWires(last, base, WritersAt(|m1.k.kids|, cmds, ws0, j), c.n, c.err, ArgvOf(cmds, StageCount(cmds) - 1));
    LastFed(m1, last, Stage(last, Via(c), ArgvOf(cmds, StageCount(cmds) - 1)), cmds, ws0, j);
  }

  lemma NumberedReady(m: Machine, cmds: seq<Command>, ws0: set<nat>)
    requires Idle(m) && FrontOk(m) && Alternating(cmds) && NoUser(cmds) && EndsNumbered(cmds)
    requires TargetOk(m, cmds[|cmds| - 1].n)
    requires Quiet(m.k.fds) && StdIs(m.k.fds) && Offers(m.k.fds, Front(m), m.k.kids, ws0)
    ensures var m1 := Begin(m); var last := LastStart(m, cmds); var base := m1.k.fds - Keys(Front(m));
            var j := StageCount(cmds) - 1;
            && 0 < StageCount(cmds) && Going(m1, last, base, m.k.pipes, j) && Quiet(base)
            && Woven(m1, last, cmds, ws0, j)
  {
    BeginGoing(m);
    BeginWoven(m, cmds, ws0);
    LinksOk(cmds);
    LastStartOk(m, cmds);
    hide Quiet, StdIs, Offers, FrontOk, Keeps, Going, Woven, Stage, AfterStages, Fed, Aimed, Alternating, NoUser, AllOrdinary, LinkOf;
    var m1 := Begin(m);
    WeaveStages(m1, m1.k.fds - Keys(Front(m)), m.k.pipes, cmds, ws0, StageCount(cmds) - 1);
  }

  /** The target pipe is still in the table when the last stage starts. */
  lemma TargetThere(m: Machine, n: int)
    requires Idle(m) && FrontOk(m) && TargetOk(m, n)
    ensures var base := Begin(m).k.fds - Keys(Front(m)); var p := m.s.ring[Slot(m.s.head, n + 1)];
            p == NoEnds || (p.wr in base && p.wr in m.k.fds && Holds(base, p)
                            && base[p.wr] == m.k.fds[p.wr] && base[p.wr].obj.WriteEnd?)
  {
    BeginOk(m);
  }

  lemma NumberedPipes(m: Machine, c: Command, argv: seq<string>)
    requires |m.s.ring| == SIZE && c.Numbered?
    ensures var r := Finish(Spawn(Connect(Shift(m), Via(c)), c.err, argv), true);
            && r.k.kids == Stage(m, Via(c), argv).k.kids
            && (m.s.ring[Slot(m.s.head, c.n)] == NoEnds ==> r.k.pipes == m.k.pipes + 1)
  {
    CloseEffect(m.k, m.s.prev);
    FinishKids(Spawn(Connect(Shift(m), Via(c)), c.err, argv), true);
  }

  /** The pipe a piece ending in a numbered pipe writes to, seen from its two ends. */
  ghost function TargetId(m: Machine, r: Machine, n: int): nat
    requires |m.s.ring| == SIZE
  {
    var p := m.s.ring[Slot(m.s.head, n + 1)];
    if p != NoEnds && p.wr in m.k.fds && m.k.fds[p.wr].obj.WriteEnd? then m.k.fds[p.wr].obj.id
    else if 0 < r.k.pipes then r.k.pipes - 1 else 0
  }

  lemma SameTarget(m: Machine, last: Machine, base: Table, r: Machine, cmds: seq<Command>, ws0: set<nat>)
    requires EndsNumbered(cmds) && |m.s.ring| == SIZE == |last.s.ring| && AtLast(m, last, base, cmds, ws0)
    requires m.s.ring[Slot(m.s.head, cmds[|cmds| - 1].n + 1)] == NoEnds ==> r.k.pipes == last.k.pipes + 1
    ensures NumberedId(Shift(last), cmds[|cmds| - 1].n) == TargetId(m, r, cmds[|cmds| - 1].n)
  {
    hide Woven, Quiet, Slot, Begin;
    ShiftOk(last, base);
  }

  lemma ReachLast(m: Machine, cmds: seq<Command>, ws0: set<nat>)
    requires Idle(m) && FrontOk(m) && Alternating(cmds) && NoUser(cmds) && EndsNumbered(cmds)
    requires TargetOk(m, cmds[|cmds| - 1].n)
    requires Quiet(m.k.fds) && StdIs(m.k.fds) && Offers(m.k.fds, Front(m), m.k.kids, ws0)
    ensures AtLast(m, LastStart(m, cmds), Begin(m).k.fds - Keys(Front(m)), cmds, ws0)
  {
    hide StdIs, Offers, FrontOk, TargetOk, Sound, Gone, Barrier, Loop, Woven, LastStart, Alternating, NoUser, Quiet,
         Slot, NextHead, StageCount, Holds;
    var last := LastStart(m, cmds);
    NumberedReady(m, cmds, ws0);
    TargetThere(m, cmds[|cmds| - 1].n);
    BeginWoven(m, cmds, ws0);
    SlotShift(m.s.head, cmds[|cmds| - 1].n);
  }

  /** A piece that ends in a numbered pipe. */
  lemma NumberedWire(m: Machine, cmds: seq<Command>, ws0: set<nat>)
    requires Idle(m) && FrontOk(m) && Alternating(cmds) && NoUser(cmds) && EndsNumbered(cmds)
    requires TargetOk(m, cmds[|cmds| - 1].n)
    requires Quiet(m.k.fds) && StdIs(m.k.fds) && Offers(m.k.fds, Front(m), m.k.kids, ws0)
    ensures var r := RunPiece(m, cmds);
            NumberedWired(m, LastStart(m, cmds), r, cmds, ws0, TargetId(m, r, cmds[|cmds| - 1].n))
            && MadeLast(m, LastStart(m, cmds), r, cmds[|cmds| - 1].n)
  {
    var last := LastStart(m, cmds);
    var base := Begin(m).k.fds - Keys(Front(m));
    ReachLast(m, cmds, ws0);
    LinksOk(cmds);
    LastStartOk(m, cmds);
    WireUp(m, last, base, cmds, ws0);
  }

  lemma WireUp(m: Machine, last: Machine, base: Table, cmds: seq<Command>, ws0: set<nat>)
    requires EndsNumbered(cmds) && |m.s.ring| == SIZE == |last.s.ring| && AtLast(m, last, base, cmds, ws0)
    requires LinkOf(cmds, StageCount(cmds) - 1) == Via(cmds[|cmds| - 1])
    ensures var c := cmds[|cmds| - 1]; var r := Finish(Spawn(Connect(Shift(last), Via(c)), c.err, ArgvOf(cmds, StageCount(cmds) - 1)), true);
            NumberedWired(m, last, r, cmds, ws0, TargetId(m, r, c.n)) && MadeLast(m, last, r, c.n)
  {
    hide Going, Woven, Quiet, LinkOf, Finish, Spawn, Connect, Shift, Slot, Begin, TargetId, NumberedId, Stage, LoopWired, KidsOk, Holds;
    var c := cmds[|cmds| - 1];
    var r := Finish(Spawn(Connect(Shift(last), Via(c)), c.err, ArgvOf(cmds, StageCount(cmds) - 1)), true);
    NumberedLoop(m, last, base, cmds, ws0);
    NumberedPipes(last, c, ArgvOf(cmds, StageCount(cmds) - 1));
    SameTarget(m, last, base, r, cmds, ws0);
    WiredLike(m, last, Stage(last, Via(c), ArgvOf(cmds, StageCount(cmds) - 1)), r, cmds, ws0, NumberedId(Shift(last), c.n));
  }

  lemma WiredLike(m: Machine, last: Machine, r: Machine, r': Machine, cmds: seq<Command>, ws0: set<nat>, id: nat)
    requires NumberedWired(m, last, r, cmds, ws0, id) && r.k.kids == r'.k.kids
    ensures NumberedWired(m, last, r', cmds, ws0, id)
  {
  }
}
