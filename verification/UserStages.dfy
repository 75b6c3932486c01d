/** The stages of a user's piece, those that write to another user included. */
module UserStages {
  import opened Kernel
  import opened Pipes
  import opened Shell
  import opened Ownership
  import opened Stages
  import opened Pieces
  import opened PieceRuns
  import opened Runs
  import opened UserShell
  import opened UserPipes

  /** Making a user pipe and a copy of its write end. */
  function WriteMachine(m: Machine): Machine {
    var p := NewEnds(m.k.fds, m.k.pipes);
    var k1 := MakePipe(m.k);
    Machine(Do(k1, Dup(p.wr)), m.s.(curr := Ends(-1, LowestFree(k1.fds))))
  }

  /** Ready to fork, with the table outside the two pipe variables known. */
  ghost predicate ReadyWith(m: Machine, base: Table) {
    && Ready(m) && Keys(m.s.prev) !! Keys(m.s.curr) && m.s.curr.rd == -1
    && m.k.fds - Keys(m.s.prev) - Keys(m.s.curr) == base
  }

  lemma UserPipeTable(k: Proc)
    requires TableOk(k.fds, k.pipes)
    ensures var p := NewEnds(k.fds, k.pipes); var k1 := MakePipe(k); var k2 := Do(k1, Dup(p.wr)); var d := LowestFree(k1.fds);
            && 3 <= p.rd && 3 <= p.wr && p.rd != p.wr && p.rd !in k.fds && p.wr !in k.fds
            && 3 <= d && d !in k.fds && d != p.rd && d != p.wr && p.wr in k1.fds && IdAt(k1.fds, p.wr) == k.pipes
            && k2.fds == AddPipe(k.fds, p, k.pipes)[d := Entry(WriteEnd(k.pipes), false)]
            && k2.kids == k.kids && k2.pipes == k.pipes + 1
            && (Sound(k) ==> TableOk(k2.fds, k2.pipes) && LogOk(k2) && KidsOk(k2.kids, k2.pipes))
  {
    PipeEffect(k);
    var k1 := MakePipe(k);
    var p := NewEnds(k.fds, k.pipes);
    hide LogOk, KidsOk, Apply, LowestFree;
    TableStill(k, k1, p);
    ExtraCurr(k1, Do(k1, Dup(p.wr)), Dup(p.wr), LowestFree(k1.fds));
    DupTable(k1, p.wr);
  }

  lemma DupTable(k: Proc, fd: int)
    requires fd in k.fds
    ensures Do(k, Dup(fd)).fds == k.fds[LowestFree(k.fds) := Entry(k.fds[fd].obj, false)]
  {
  }

  lemma TableStill(k: Proc, k1: Proc, p: Ends)
    requires TableOk(k.fds, k.pipes) && k1.fds == AddPipe(k.fds, p, k.pipes) && k1.pipes == k.pipes + 1
    requires 3 <= p.rd && 3 <= p.wr
    ensures TableOk(k1.fds, k1.pipes)
  {
  }

  lemma WriteReady(m: Machine, base: Table)
    requires Ready(m) && m.k.fds - Keys(m.s.prev) == base
    ensures var m2 := WriteMachine(m); var p := NewEnds(m.k.fds, m.k.pipes);
            && ReadyWith(m2, AddPipe(base, p, m.k.pipes)) && m2.k.kids == m.k.kids && m2.k.pipes == m.k.pipes + 1
            && m2.s == m.s.(curr := m2.s.curr) && p.rd !in m.k.fds && p.wr !in m.k.fds
            && 3 <= p.rd && 3 <= p.wr && p.rd != p.wr
            && (forall q, id: nat :: id < m.k.pipes && Owns(m.k.fds, q, id) ==> Owns(m2.k.fds, q, id))
            && m2.s.curr.wr !in m.k.fds
  {
    UserPipeTable(m.k);
    hide Apply, LowestFree, Do, View, LogOk, KidsOk;
    var m2 := WriteMachine(m);
    var p := NewEnds(m.k.fds, m.k.pipes);
    WriteGone(m, m2, p, m2.s.curr.wr);
    assert Holds(m2.k.fds, m2.s.prev);
    assert Sole(m2.k.fds, m2.s.prev);
  }

  lemma WriteGone(m: Machine, m2: Machine, p: Ends, d: int)
    requires Ready(m) && m2.k.kids == m.k.kids
    requires m2.k.fds == AddPipe(m.k.fds, p, m.k.pipes)[d := Entry(WriteEnd(m.k.pipes), false)]
    ensures Gone(m2.k.kids, |m2.k.kids|, m2.k.fds)
  {
    forall u | 0 <= u < |m.k.kids| && In(m.k.kids[u]).ReadEnd?
      ensures Lacks(m2.k.fds, In(m.k.kids[u]).id)
    {
      assert Lacks(m.k.fds, In(m.k.kids[u]).id);
      assert KidOk(m.k.kids[u], m.k.pipes);
    }
  }

  /** The stage in front of a `>n` that succeeds. */
  function WriteStage(m: Machine, argv: seq<string>): Machine {
    Spawn(WriteMachine(Shift(m)), false, argv)
  }

  lemma WriteStageOk(m: Machine, base: Table, e: nat, first: nat, argv: seq<string>)
    requires Loop(m, base) && Barrier(m, base, e, first)
    ensures var p := NewEnds(Shift(m).k.fds, Shift(m).k.pipes); var base' := AddPipe(base, p, m.k.pipes);
            && Loop(WriteStage(m, argv), base') && Barrier(WriteStage(m, argv), base', e, first) && Advances(m, WriteStage(m, argv), 1)
            && WriteStage(m, argv).k.pipes == m.k.pipes + 1
            && p.rd !in base && p.wr !in base && 3 <= p.rd && 3 <= p.wr && p.rd != p.wr
  {
    hide LogOk, KidsOk, View, Apply, LowestFree, Gone;
    ShiftOk(m, base);
    var m1 := Shift(m);
    WriteReady(m1, base);
    var m2 := WriteMachine(m1);
    var p := NewEnds(m1.k.fds, m1.k.pipes);
    var base' := AddPipe(base, p, m.k.pipes);
    assert Owns(m1.k.fds, m.s.eol, e);
    assert Barrier(m2, base', e, first);
    SpawnOk(m2, false, argv);
    SpawnBarrier(m2, base', e, first, false, argv);
  }

  /** What UStage does, by cases. */
  lemma UStageIs(f: Flight, live: set<nat>, user: nat, writeUid: int, link: Link, argv: seq<string>)
    requires |f.m.s.ring| == SIZE && TableOk(Shift(f.m).k.fds, f.m.k.pipes) && Shift(f.m).k.pipes == f.m.k.pipes
    requires Ordinary(link) || (link == Via(UserTo) && 0 < writeUid)
    ensures var r := UStage(f, live, user, writeUid, link, argv); var p := NewEnds(Shift(f.m).k.fds, f.m.k.pipes);
            if Ordinary(link) then r == f.(m := Stage(f.m, link, argv))
            else if Exists(live, writeUid) && (writeUid as nat, user) !in f.pipes then
              && r.m == WriteStage(f.m, argv)
              && r.pipes == f.pipes[(writeUid as nat, user) := p]
              && r.notes == f.notes + [Wrote(user, writeUid, f.m.k.pipes)]
            else r == f.(m := Stage(f.m, Via(FileTo("/dev/null")), argv))
  {
    hide LowestFree, Apply, Do, MakePipe, CloseOps, DoAll;
    UserPipeTable(Shift(f.m).k);
  }

  lemma BaseBelow(m: Machine, base: Table)
    requires Loop(m, base)
    ensures forall fd :: fd in base ==> Below(base[fd].obj, m.k.pipes)
  {
  }

  lemma OrdinaryOk(m0: Machine, f: Flight, base: Table, e: nat, j: nat, live: set<nat>, link: Link, argv: seq<string>)
    requires |f.m.s.ring| == SIZE && UGoing(m0, f, base, e, j, live) && Ordinary(link)
    ensures UGoing(m0, f.(m := Stage(f.m, link, argv)), base, e, j + 1, live)
  {
    hide Alternate, Going, Stage;
    StageGoing(m0, f.m, base, e, j, link, argv);
    GoingPipes(m0, f.m, Stage(f.m, link, argv), base, e, j, link, argv);
    FrameSelf(base, f.m.k.pipes);
    PipesFrame(f.pipes, f.notes, base, base, f.m.k.pipes, Stage(f.m, link, argv).k.pipes, live, {});
  }

  lemma GoingPipes(m0: Machine, m: Machine, r: Machine, base: Table, e: nat, j: nat, link: Link, argv: seq<string>)
    requires Going(m0, m, base, e, j) && Ordinary(link) && r == Stage(m, link, argv)
    ensures m.k.pipes <= r.k.pipes
  {
    hide Stage;
    StageAdvances(m, base, link, argv);
  }

  lemma FrameSelf(t: Table, np: nat)
    ensures Frame(t, t, np, {})
  {
  }

  lemma WrittenOk(m0: Machine, f: Flight, base: Table, e: nat, j: nat, live: set<nat>, user: nat, uid: nat, argv: seq<string>)
    requires UGoing(m0, f, base, e, j, live) && Exists(live, uid) && (uid, user) !in f.pipes
    ensures var p := NewEnds(Shift(f.m).k.fds, Shift(f.m).k.pipes);
            var r := Flight(WriteStage(f.m, argv), f.pipes[(uid, user) := p], f.notes + [Wrote(user, uid, f.m.k.pipes)]);
            && UGoing(m0, r, AddPipe(base, p, f.m.k.pipes), e, j + 1, live)
            && Frame(base, AddPipe(base, p, f.m.k.pipes), f.m.k.pipes, {})
  {
    hide PipesOk, Alternate, AddPipe, NewEnds, WriteStage, Shift, Sound, Gone;
    WriteStageOk(f.m, base, e, |m0.k.kids|, argv);
    var p := NewEnds(Shift(f.m).k.fds, Shift(f.m).k.pipes);
    BaseBelow(f.m, base);
    AddOwns(base, f.m.k.pipes, p, f.m.k.pipes);
    FrameAdd(base, p, f.m.k.pipes);
    WrotePipes(f, user, uid, base, f.m.k.pipes, live, p);
  }

  lemma UStageOk(m0: Machine, f: Flight, base: Table, e: nat, j: nat, live: set<nat>, user: nat, writeUid: int, link: Link, argv: seq<string>)
    returns (base': Table)
    requires |f.m.s.ring| == SIZE && UGoing(m0, f, base, e, j, live)
    requires Ordinary(link) || (link == Via(UserTo) && 0 < writeUid)
    ensures UGoing(m0, UStage(f, live, user, writeUid, link, argv), base', e, j + 1, live)
    ensures Frame(base, base', f.m.k.pipes, {})
  {
    hide UGoing, UStage, Frame, Stage, WriteStage, AddPipe, NewEnds, Shift, Loop;
    UShift(m0, f, base, e, j, live);
    UStageIs(f, live, user, writeUid, link, argv);
    base' := base;
    FrameSelf(base, f.m.k.pipes);
    if Ordinary(link) {
      OrdinaryOk(m0, f, base, e, j, live, link, argv);
    } else if Exists(live, writeUid) && (writeUid as nat, user) !in f.pipes {
      WrittenOk(m0, f, base, e, j, live, user, writeUid, argv);
      base' := AddPipe(base, NewEnds(Shift(f.m).k.fds, f.m.k.pipes), f.m.k.pipes);
    } else {
      OrdinaryOk(m0, f, base, e, j, live, Via(FileTo("/dev/null")), argv);
    }
  }

  lemma UShift(m0: Machine, f: Flight, base: Table, e: nat, j: nat, live: set<nat>)
    requires UGoing(m0, f, base, e, j, live)
    ensures TableOk(Shift(f.m).k.fds, f.m.k.pipes) && Shift(f.m).k.pipes == f.m.k.pipes
  {
    hide PipesOk, Alternate, Barrier;
    ShiftOk(f.m, base);
  }

  /** A connector a user's piece can continue with. */
  predicate Onwards(link: Link, writeUid: int) {
    Ordinary(link) || (link == Via(UserTo) && 0 < writeUid)
  }

  predicate AllOnwards(p: Piece, j: nat) {
    forall i :: 0 <= i < j ==> Onwards(LinkOf(p.cmds, i), p.writeUid)
  }

  lemma {:induction false} UStagesOk(f: Flight, base: Table, e: nat, live: set<nat>, user: nat, p: Piece, j: nat)
    returns (base': Table)
    requires |f.m.s.ring| == SIZE && UGoing(f.m, f, base, e, 0, live) && AllOnwards(p, j)
    ensures UGoing(f.m, UStages(f, live, user, p, j), base', e, j, live)
    ensures Frame(base, base', f.m.k.pipes, {})
  {
    hide UGoing, UStage, Frame, LinkOf;
    base' := base;
    FrameSelf(base, f.m.k.pipes);
    if j > 0 {
      var b := UStagesOk(f, base, e, live, user, p, j - 1);
      var f1 := UStages(f, live, user, p, j - 1);
      base' := UStageOk(f.m, f1, b, e, j - 1, live, user, p.writeUid, LinkOf(p.cmds, j - 1), ArgvOf(p.cmds, j - 1));
      GoingMore(f.m, f1, b, e, j - 1, live);
      FrameTrans(base, b, base', f.m.k.pipes, f1.m.k.pipes, {});
    }
  }

  lemma GoingMore(m0: Machine, f: Flight, base: Table, e: nat, j: nat, live: set<nat>)
    requires UGoing(m0, f, base, e, j, live)
    ensures m0.k.pipes <= f.m.k.pipes && f.m.s.ring == m0.s.ring && f.m.s.head == m0.s.head && f.m.s.eol == m0.s.eol
    ensures m0.k.kids <= f.m.k.kids && |f.m.k.kids| == |m0.k.kids| + j
  {
  }

  /** The shape of a user's piece: alternating, and a `>n` only with a positive n. */
  predicate UShape(p: Piece) {
    Alternating(p.cmds) && ((exists i :: 0 <= i < |p.cmds| && p.cmds[i].UserTo?) ==> 0 < p.writeUid)
  }

  lemma ULinks(p: Piece)
    requires UShape(p)
    ensures AllOnwards(p, if EndsNumbered(p.cmds) || |p.cmds| % 2 == 1 then StageCount(p.cmds) - 1 else StageCount(p.cmds))
    ensures 0 < StageCount(p.cmds)
    ensures EndsNumbered(p.cmds) ==> |p.cmds| % 2 == 0 && LinkOf(p.cmds, StageCount(p.cmds) - 1) == Via(p.cmds[|p.cmds| - 1])
    ensures |p.cmds| % 2 == 1 ==> LinkOf(p.cmds, StageCount(p.cmds) - 1) == NoLink
  {
    var n := |p.cmds|;
    assert p.cmds[n - 1].Exe? <==> (n - 1) % 2 == 0;
    forall i | 0 <= i && 2 * i + 1 < n && !(EndsNumbered(p.cmds) && 2 * i + 1 == n - 1)
      ensures Onwards(LinkOf(p.cmds, i), p.writeUid)
    {
      assert p.cmds[2 * i + 1].Exe? <==> (2 * i + 1) % 2 == 0;
    }
  }

  /** After the loop over the stages of a piece that does not end in a numbered pipe. */
  ghost predicate UDone(m0: Machine, f: Flight, base: Table, live: set<nat>, n: nat) {
    && Done(f.m, base) && Advances(m0, f.m, n)
    && PipesOk(f.pipes, f.notes, base, f.m.k.pipes, live) && Alternate(f.notes)
  }

  lemma UOpen(m0: Machine, f: Flight, base: Table, e: nat, j: nat, live: set<nat>, argv: seq<string>)
    requires |f.m.s.ring| == SIZE && UGoing(m0, f, base, e, j, live)
    ensures UDone(m0, f.(m := Stage(f.m, NoLink, argv)), base, live, j + 1)
  {
    hide PipesOk, Alternate, Loop, Barrier, Done;
    LastOpen(m0, f.m, base, e, j, argv);
    LastPipes(f.m, base, argv);
    FrameSelf(base, f.m.k.pipes);
    PipesSelf(f.pipes, f.notes, base, f.m.k.pipes, Stage(f.m, NoLink, argv).k.pipes, live);
  }

  lemma LastPipes(m: Machine, base: Table, argv: seq<string>)
    requires Loop(m, base)
    ensures Stage(m, NoLink, argv).k.pipes == m.k.pipes
  {
    hide Sound, Gone;
    CloseEffect(m.k, m.s.prev);
  }

  lemma PipesSelf(pipes: PipeTable, notes: seq<Note>, t: Table, np: nat, np': nat, live: set<nat>)
    requires PipesOk(pipes, notes, t, np, live) && np <= np'
    ensures PipesOk(pipes, notes, t, np', live)
  {
    FrameSelf(t, np);
    PipesFrame(pipes, notes, t, t, np, np', live, {});
  }

  lemma UEven(m0: Machine, f: Flight, base: Table, e: nat, j: nat, live: set<nat>)
    requires UGoing(m0, f, base, e, j, live) && 0 < j
    ensures UDone(m0, f, base, live, j)
  {
    hide PipesOk, Alternate, Barrier, Sound, Gone;
  }

  lemma UPlainStages(f: Flight, base: Table, e: nat, live: set<nat>, user: nat, p: Piece) returns (base': Table)
    requires |f.m.s.ring| == SIZE && UGoing(f.m, f, base, e, 0, live) && UShape(p) && !EndsNumbered(p.cmds)
    ensures UDone(f.m, UStages(f, live, user, p, StageCount(p.cmds)), base', live, StageCount(p.cmds))
    ensures Frame(base, base', f.m.k.pipes, {})
  {
    hide UGoing, UDone, UStage, Frame, LinkOf, UShape, EndsNumbered;
    ULinks(p);
    var n := StageCount(p.cmds);
    if |p.cmds| % 2 == 1 {
      base' := UStagesOk(f, base, e, live, user, p, n - 1);
      var f1 := UStages(f, live, user, p, n - 1);
      UOpen(f.m, f1, base', e, n - 1, live, ArgvOf(p.cmds, StageCount(p.cmds) - 1));
      UOpenIs(f1, live, user, p.writeUid, ArgvOf(p.cmds, StageCount(p.cmds) - 1));
    } else {
      base' := UStagesOk(f, base, e, live, user, p, n);
      UEven(f.m, UStages(f, live, user, p, n), base', e, n, live);
    }
  }

  lemma UOpenIs(f: Flight, live: set<nat>, user: nat, writeUid: int, argv: seq<string>)
    requires |f.m.s.ring| == SIZE
    ensures UStage(f, live, user, writeUid, NoLink, argv) == f.(m := Stage(f.m, NoLink, argv))
  {
  }
}
