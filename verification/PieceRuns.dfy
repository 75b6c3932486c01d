/** The whole effect of a piece that has no user pipe, for each way it can end. */
module PieceRuns {
  import opened Kernel
  import opened Pipes
  import opened Shell
  import opened Ownership
  import opened Stages
  import opened Pieces

  predicate NoUser(cmds: seq<Command>) {
    forall i :: 0 <= i < |cmds| ==> !cmds[i].UserTo?
  }

  function Front(m: Machine): Ends
    requires |m.s.ring| == SIZE
  {
    m.s.ring[NextHead(m.s.head)]
  }

  ghost predicate FrontOk(m: Machine)
    requires |m.s.ring| == SIZE
  {
    Front(m) == NoEnds || exists id :: Owns(m.k.fds, Front(m), id)
  }

  function AddPipe(t: Table, p: Ends, id: nat): Table {
    t[p.rd := Entry(ReadEnd(id), true)][p.wr := Entry(WriteEnd(id), true)]
  }

  lemma LinksOk(cmds: seq<Command>)
    requires Alternating(cmds) && NoUser(cmds)
    ensures AllOrdinary(cmds, if EndsNumbered(cmds) || |cmds| % 2 == 1 then StageCount(cmds) - 1 else StageCount(cmds))
    ensures 0 < StageCount(cmds)
    ensures EndsNumbered(cmds) ==> |cmds| % 2 == 0 && LinkOf(cmds, StageCount(cmds) - 1) == Via(cmds[|cmds| - 1])
    ensures |cmds| % 2 == 1 ==> LinkOf(cmds, StageCount(cmds) - 1) == NoLink
  {
    var n := |cmds|;
    assert cmds[n - 1].Exe? <==> (n - 1) % 2 == 0;
    forall i | 0 <= i && 2 * i + 1 < n && !(EndsNumbered(cmds) && 2 * i + 1 == n - 1)
      ensures Ordinary(LinkOf(cmds, i))
    {
      assert cmds[2 * i + 1].Exe? <==> (2 * i + 1) % 2 == 0;
    }
  }

  lemma BeginGoing(m: Machine)
    requires Idle(m) && FrontOk(m)
    ensures var m1 := Begin(m); Going(m1, m1, m1.k.fds - Keys(Front(m)), m.k.pipes, 0)
  {
    BeginOk(m);
  }

  /** The last program of a piece without a connector behind it shares its pipe variables. */
  lemma LastOpen(m0: Machine, m: Machine, base: Table, e: nat, j: nat, argv: seq<string>)
    requires Going(m0, m, base, e, j)
    ensures Done(Stage(m, NoLink, argv), base) && Advances(m0, Stage(m, NoLink, argv), j + 1)
  {
    ShiftOk(m, base);
    var m1 := Shift(m);
    SpawnOk(m1, false, argv);
    var m2 := Spawn(m1, false, argv);
    assert m2.k.fds - Keys(m2.s.prev) - Keys(m2.s.curr) == base;
  }

  lemma StagesDone(m: Machine, cmds: seq<Command>)
    requires Idle(m) && FrontOk(m) && Alternating(cmds) && NoUser(cmds) && !EndsNumbered(cmds)
    ensures var m1 := Begin(m); var r := AfterStages(m1, cmds, StageCount(cmds));
            Done(r, m1.k.fds - Keys(Front(m))) && Advances(m1, r, StageCount(cmds))
  {
    hide Sound, Gone, Barrier, Stage;
    BeginGoing(m);
    LinksOk(cmds);
    var m1 := Begin(m);
    var base := m1.k.fds - Keys(Front(m));
    var n := StageCount(cmds);
    if |cmds| % 2 == 1 {
      StagesOk(m1, cmds, n - 1, base, m.k.pipes);
      LastOpen(m1, AfterStages(m1, cmds, n - 1), base, m.k.pipes, n - 1, ArgvOf(cmds, StageCount(cmds) - 1));
    } else {
      StagesOk(m1, cmds, n, base, m.k.pipes);
    }
  }

  /** A piece that does not end in a numbered pipe: the due pipe is closed, the two ends of the
      piece's own barrier pipe stay open, everything else is as before. */
  lemma PlainPiece(m: Machine, cmds: seq<Command>)
    requires Idle(m) && FrontOk(m) && Alternating(cmds) && NoUser(cmds) && !EndsNumbered(cmds)
    ensures var r := RunPiece(m, cmds); var p := NewEnds(m.k.fds, m.k.pipes);
            && Idle(r) && r.k.fds == AddPipe(m.k.fds, p, m.k.pipes) - Keys(Front(m))
            && Keys(p) == {p.rd, p.wr} && p.rd != p.wr && Keys(p) !! m.k.fds.Keys
            && r.s.ring == m.s.ring && r.s.head == NextHead(m.s.head)
            && m.k.kids <= r.k.kids && |r.k.kids| == |m.k.kids| + StageCount(cmds) && m.k.pipes < r.k.pipes
            && r.s.w1 == |r.k.kids|
            && exists i :: 0 <= i < |r.k.log| && r.k.log[i].op == Wait(|r.k.kids|)
  {
    BeginOk(m);
    StagesDone(m, cmds);
    LinksOk(cmds);
    var m1 := Begin(m);
    FinishPlain(AfterStages(m1, cmds, StageCount(cmds)), m1.k.fds - Keys(Front(m)));
  }

  /** Where the last stage of a piece ending in `|n` or `!n` writes. */
  ghost predicate TargetOk(m: Machine, n: int)
    requires |m.s.ring| == SIZE
  {
    var p := m.s.ring[Slot(m.s.head, n + 1)];
    p == NoEnds || (Keys(p) !! Keys(Front(m)) && exists id :: Owns(m.k.fds, p, id))
  }

  /** Ready to fork the last stage of a piece that ends in a numbered pipe. */
  ghost predicate Forkable(m: Machine, base: Table, e: nat, first: nat) {
    && Ready(m) && Barrier(m, base, e, first)
    && Keys(m.s.eol) !! Keys(m.s.prev) + Keys(m.s.curr)
  }

  /** What Connect makes of slot, given the state m1 in front of it and the table base outside
      the previous pipe. */
  ghost predicate Targeted(m1: Machine, m2: Machine, base: Table, slot: nat)
    requires |m1.s.ring| == SIZE && slot < SIZE
  {
    var p := m1.s.ring[slot];
    var q := m2.s.curr;
    && m2.k.kids == m1.k.kids && m2.s == m1.s.(curr := q, ring := m1.s.ring[slot := q])
    && if p != NoEnds then
         q == p && m2.k.pipes == m1.k.pipes && m2.k.fds - Keys(m2.s.prev) == base
       else
         && 3 <= q.rd && 3 <= q.wr && q.rd != q.wr && q.rd !in base && q.wr !in base
         && m2.k.pipes == m1.k.pipes + 1
         && m2.k.fds - Keys(m2.s.prev) == AddPipe(base, q, m1.k.pipes)
  }

  /** The numbered connector: a new pipe for an empty slot, or the pipe the slot already has. */
  lemma NumberedConnect(m0: Machine, m: Machine, base: Table, e: nat, j: nat, n: int, err: bool)
    requires Going(m0, m, base, e, j)
    requires var p := m.s.ring[Slot(m.s.head, n)];
             p == NoEnds || (Holds(base, p) && Keys(p) !! Keys(m.s.eol))
    ensures var m1 := Shift(m); var m2 := Connect(m1, Via(Numbered(n, err)));
            Forkable(m2, base, e, |m0.k.kids|) && Targeted(m1, m2, base, Slot(m.s.head, n))
  {
    ShiftOk(m, base);
    var m1 := Shift(m);
    var m2 := Connect(m1, Via(Numbered(n, err)));
    if m.s.ring[Slot(m.s.head, n)] == NoEnds {
      NewPipeOk(m1);
      assert m2.k == Connect(m1, Via(PipeTo)).k;
    }
    assert Barrier(m1, base, e, |m0.k.kids|);
  }

  /** The last but one operation reads pipe e to its end, and every child from first on carries
      the write end of e up to its exec. */
  ghost predicate Drained(m: Machine, e: nat, first: nat) {
    var d := |m.k.log| - 2;
    var eol := m.s.eol;
    && 0 <= d && m.k.log[d].op == Drain(eol.rd) && m.k.log[d].born == |m.k.kids|
    && eol.rd in m.k.log[d].before && m.k.log[d].before[eol.rd].obj == ReadEnd(e)
    && forall u :: first <= u < |m.k.kids| ==> Bars(m.k.kids[u], eol.wr, e)
  }

  ghost predicate Landed(m: Machine, f: Machine) {
    && f.k.fds == m.k.fds - Keys(m.s.prev) - Keys(m.s.eol)
    && m.k.kids <= f.k.kids && |f.k.kids| == |m.k.kids| + 1 && f.k.pipes == m.k.pipes
    && f.s == m.s.(prev := NoEnds, w0 := m.s.w1, w1 := |f.k.kids|)
  }

  lemma LandOk(m: Machine, base: Table, e: nat, first: nat, err: bool, argv: seq<string>)
    requires Forkable(m, base, e, first)
    ensures var f := Finish(Spawn(m, err, argv), true); Idle(f) && Landed(m, f) && Drained(f, e, first)
  {
    SpawnOk(m, err, argv);
    SpawnBarrier(m, base, e, first, err, argv);
    FinishNumbered(Spawn(m, err, argv), base, e, first);
  }

  /** The state in which the last stage of a piece starts. */
  function LastStart(m: Machine, cmds: seq<Command>): (r: Machine)
    requires |m.s.ring| == SIZE && cmds != []
    ensures |r.s.ring| == SIZE
  {
    AfterStages(Begin(m), cmds, StageCount(cmds) - 1)
  }

  lemma LastStartOk(m: Machine, cmds: seq<Command>)
    requires |m.s.ring| == SIZE && Idle(m) && FrontOk(m) && Alternating(cmds) && NoUser(cmds) && EndsNumbered(cmds)
    ensures var m1 := Begin(m); var r := LastStart(m, cmds); var c := cmds[|cmds| - 1];
            && Going(m1, r, m1.k.fds - Keys(Front(m)), m.k.pipes, StageCount(cmds) - 1)
            && RunPiece(m, cmds) == Finish(Spawn(Connect(Shift(r), Via(c)), c.err, ArgvOf(cmds, StageCount(cmds) - 1)), true)
  {
    hide Going, Idle, FrontOk, Finish, Spawn, Connect, Shift, AllOrdinary, LinkOf, Alternating, NoUser;
    BeginGoing(m);
    LinksOk(cmds);
    var m1 := Begin(m);
    StagesOk(m1, cmds, StageCount(cmds) - 1, m1.k.fds - Keys(Front(m)), m.k.pipes);
  }

  /** The table, the ring and the children after a piece ending in a numbered pipe. */
  ghost predicate NumberedEffect(m: Machine, r: Machine, cmds: seq<Command>)
    requires EndsNumbered(cmds) && |m.s.ring| == SIZE
  {
    var slot := Slot(m.s.head, cmds[|cmds| - 1].n + 1);
    var q := r.s.curr;
    var rest := m.k.fds - Keys(Front(m));
    && r.s.ring == m.s.ring[slot := q] && r.s.head == NextHead(m.s.head)
    && m.k.kids <= r.k.kids && |r.k.kids| == |m.k.kids| + StageCount(cmds) && m.k.pipes < r.k.pipes
    && r.s.w1 == |r.k.kids|
    && if m.s.ring[slot] != NoEnds then
         q == m.s.ring[slot] && r.k.fds == rest
       else
         && 3 <= q.rd && 3 <= q.wr && q.rd != q.wr && q.rd !in rest && q.wr !in rest
         && m.k.pipes < r.k.pipes - 1 && r.k.fds == AddPipe(rest, q, r.k.pipes - 1)
  }

  lemma SlotShift(head: nat, n: int)
    ensures Slot(NextHead(head), n) == Slot(head, n + 1)
  {
  }

  /** The target pipe is among the descriptors the stages leave alone. */
  lemma TargetHolds(m: Machine, n: int)
    requires Idle(m) && FrontOk(m) && TargetOk(m, n)
    ensures var m1 := Begin(m); var base := m1.k.fds - Keys(Front(m)); var p := m.s.ring[Slot(m.s.head, n + 1)];
            && (p == NoEnds || (Holds(base, p) && Keys(p) !! Keys(m1.s.eol)))
            && base - Keys(m1.s.eol) == m.k.fds - Keys(Front(m))
  {
    BeginOk(m);
  }

  /** m1 is m with its barrier pipe made and its ring advanced. */
  ghost predicate Begun(m: Machine, m1: Machine) {
    && m1.k.kids == m.k.kids && m1.k.pipes == m.k.pipes + 1
    && m1.s.ring == m.s.ring && m1.s.head == NextHead(m.s.head)
  }

  lemma NumberedSum(m: Machine, m1: Machine, m2: Machine, m3: Machine, r: Machine, cmds: seq<Command>, base: Table)
    requires EndsNumbered(cmds) && 0 < StageCount(cmds) && |m.s.ring| == SIZE == |m2.s.ring|
    requires Begun(m, m1) && Advances(m1, m2, StageCount(cmds) - 1)
    requires m3.k.kids == m2.k.kids
    requires Targeted(Shift(m2), m3, base, Slot(m.s.head, cmds[|cmds| - 1].n + 1))
    requires Keys(m3.s.eol) !! Keys(m3.s.curr)
    requires Landed(m3, r) && base - Keys(m3.s.eol) == m.k.fds - Keys(Front(m))
    ensures NumberedEffect(m, r, cmds)
  {
    CloseEffect(m2.k, m2.s.prev);
    var q := r.s.curr;
    var rest := m.k.fds - Keys(Front(m));
    if m.s.ring[Slot(m.s.head, cmds[|cmds| - 1].n + 1)] == NoEnds {
      assert r.k.fds == AddPipe(rest, q, r.k.pipes - 1);
    }
  }

  lemma NumberedLand(m: Machine, m1: Machine, m2: Machine, cmds: seq<Command>, base: Table, e: nat)
    requires EndsNumbered(cmds) && 0 < StageCount(cmds) && |m.s.ring| == SIZE == |m2.s.ring|
    requires Begun(m, m1) && Going(m1, m2, base, e, StageCount(cmds) - 1)
    requires var p := m2.s.ring[Slot(m2.s.head, cmds[|cmds| - 1].n)];
             p == NoEnds || (Holds(base, p) && Keys(p) !! Keys(m2.s.eol))
    requires base - Keys(m2.s.eol) == m.k.fds - Keys(Front(m))
    ensures var c := cmds[|cmds| - 1]; var r := Finish(Spawn(Connect(Shift(m2), Via(c)), c.err, ArgvOf(cmds, StageCount(cmds) - 1)), true);
            Idle(r) && NumberedEffect(m, r, cmds) && Drained(r, e, |m.k.kids|)
  {
    hide Sound, Gone, Barrier, Loop, Finish, Spawn;
    var c := cmds[|cmds| - 1];
    NumberedConnect(m1, m2, base, e, StageCount(cmds) - 1, c.n, c.err);
    var m3 := Connect(Shift(m2), Via(c));
    LandOk(m3, base, e, |m.k.kids|, c.err, ArgvOf(cmds, StageCount(cmds) - 1));
    SlotShift(m.s.head, c.n);
    var r := Finish(Spawn(m3, c.err, ArgvOf(cmds, StageCount(cmds) - 1)), true);
    assert m3.k.kids == m2.k.kids by { CloseEffect(m2.k, m2.s.prev); }
    NumberedSum(m, m1, m2, m3, r, cmds, base);
  }

  /** A piece ending in a numbered pipe: the due pipe and the barrier pipe are closed, and the
      target slot names the pipe it already named or a new one. */
  lemma NumberedPiece(m: Machine, cmds: seq<Command>)
    requires Idle(m) && FrontOk(m) && Alternating(cmds) && NoUser(cmds) && EndsNumbered(cmds)
    requires TargetOk(m, cmds[|cmds| - 1].n)
    ensures var r := RunPiece(m, cmds);
            Idle(r) && NumberedEffect(m, r, cmds) && Drained(r, m.k.pipes, |m.k.kids|)
  {
    hide Sound, Gone, Barrier, Loop, Finish, Spawn, Owns, NumberedEffect, Drained, Alternating, NoUser, NextHead;
    var m1 := Begin(m);
    var base := m1.k.fds - Keys(Front(m));
    var m2 := LastStart(m, cmds);
    var c := cmds[|cmds| - 1];
    LinksOk(cmds);
    LastStartOk(m, cmds);
    assert Begun(m, m1);
    SlotShift(m.s.head, c.n);
    TargetHolds(m, c.n);
    NumberedLand(m, m1, m2, cmds, base, m.k.pipes);
  }
}
