/**
 What a stale slot does to a program: a line nothing was sent to reads a pipe that was never meant
 for it.
 */
module StaleRead {
  import opened Kernel
  import opened Pipes
  import opened Shell
  import opened Ownership
  import opened Pieces
  import opened PieceRuns
  import opened Runs
  import opened Accounts
  import opened RunWiring
  import opened DelayRing
  import SE = StaleExit

  lemma OnlyStage(m: Machine, cmds: seq<Command>)
    requires |m.s.ring| == SIZE && StageCount(cmds) == 1
    ensures RunPiece(m, cmds) == Finish(Stage(Begin(m), LinkOf(cmds, 0), ArgvOf(cmds, 0)), EndsNumbered(cmds))
  {
    hide Finish, Stage, LinkOf, NewEnds, NextHead;
    assert AfterStages(Begin(m), cmds, 0) == Begin(m);
    assert AfterStages(Begin(m), cmds, 1) == Stage(Begin(m), LinkOf(cmds, 0), ArgvOf(cmds, 0));
  }

  lemma Start()
    ensures Run([]) == Machine(FreshProc, NewShell()) && FreshProc.fds.Keys == {0, 1, 2}
    ensures NewShell().prev == NoEnds && NewShell().head == 0 && |NewShell().ring| == SIZE
    ensures forall c :: 0 <= c < SIZE ==> NewShell().ring[c] == NoEnds
    ensures NextHead(0) == 1 && Slot(1, 1) == 2
  {
  }

  lemma DelayFirst(m: Machine, argv: seq<string>)
    requires |m.s.ring| == SIZE && m.s.prev == NoEnds && m.s.head == 0 && m.k.fds.Keys == {0, 1, 2}
    requires m.s.ring[2] == NoEnds && m.s.ring[1] == NoEnds
    ensures var r := Finish(Spawn(Connect(Shift(Begin(m)), Via(Numbered(1, false))), false, argv), true);
            r.k.fds.Keys == {0, 1, 2, 5, 6} && |r.s.ring| == SIZE && r.s.ring[2] == Ends(5, 6)
  {
    assert NextHead(0) == 1 && Slot(1, 1) == 2;
    assert SE.Lowest({0, 1, 2}, 3, 4) && {0, 1, 2} + {3, 4} == {0, 1, 2, 3, 4} && SE.Lowest({0, 1, 2, 3, 4}, 5, 6);
    hide Finish, Spawn, Connect, Shift, Begin, Slot, NextHead;
    SE.DelayMachine(m, 1, 3, 4, 5, 6, argv);
    assert Keys(NoEnds) == {};
    assert {0, 1, 2} + {3, 4} + {5, 6} - {} - {3, 4} == {0, 1, 2, 5, 6};
  }

  /** After `ls |1` slot 2 names descriptors 5 and 6, the only ones open besides the standard ones. */
  lemma FirstLine()
    ensures var m := Run([Delay]);
            m.k.fds.Keys == {0, 1, 2, 5, 6} && m.s.ring[2] == Ends(5, 6)
  {
    hide Run, RunPiece, Finish, Spawn, Connect, Shift, Begin, NewShell, Slot, NextHead, Stage;
    RunStep([Delay]);
    assert [Delay][..0] == [];
    Start();
    var m0 := Run([]);
    OnlyStage(m0, Delay);
    assert LinkOf(Delay, 0) == Via(Numbered(1, false));
    BeginSize(m0);
    StageIs(Begin(m0), ArgvOf(Delay, 0));
    DelayFirst(m0, ArgvOf(Delay, 0));
  }

  lemma BeginSize(m: Machine)
    requires |m.s.ring| == SIZE
    ensures |Begin(m).s.ring| == SIZE
  {
  }

  lemma StageIs(m: Machine, argv: seq<string>)
    requires |m.s.ring| == SIZE
    ensures var link := Via(Numbered(1, false)); Stage(m, link, argv) == Spawn(Connect(Shift(m), link), false, argv)
  {
  }

  lemma PrefixFacts(n: nat)
    requires 1 <= n <= |Stale()|
    ensures var ps := Stale()[..n];
            && WellFormed(ps) && NoReuse(ps)
            && (forall due: map<nat, Reg> :: Targets(ps, due) ==> due.Keys == {2})
            && ps[n - 1] == (if n == 1 then Delay else Cat)
  {
    hide NoReuse;
    StaleFine();
    PrefixFine(Stale(), n);
    var ps := Stale()[..n];
    assert Sends(ps, 0, 2);
    forall j: nat, x | Sends(ps, j, x)
      ensures x == 2
    {
      assert Sends(Stale(), j, x);
    }
    forall due: map<nat, Reg> | Targets(ps, due)
      ensures due.Keys == {2}
    {
      assert forall x: nat :: x in due <==> x == 2;
    }
  }

  /** The front of the ring in front of line n + 1. */
  lemma FrontAt(n: nat) returns (due: map<nat, Reg>)
    requires 1 <= n <= SIZE
    ensures n <= |Stale()|
    ensures var m := Run(Stale()[..n]);
            && Idle(m) && FrontOk(m) && (n != 1 ==> Front(m) == NoEnds) && (n == 1 ==> Front(m) == m.s.ring[2])
            && RingOk(m, n, due) && due.Keys == {2}
  {
    hide Run, WellFormed, NoReuse, Idle, Folds, Cell, Stale, NextHead;
    StaleSlot();
    PrefixFacts(n);
    due := RunOk(Stale()[..n]);
    CellApart(n);
    FrontDue(Run(Stale()[..n]), n, due);
    if n == 1 {
      assert Front(Run(Stale()[..n])) == due[2].p;
      SlotTwo(Run(Stale()[..n]), n, due);
    }
  }

  lemma CellApart(n: nat)
    requires 1 <= n <= SIZE
    ensures n != 1 ==> Cell(2) != Cell(n + 1)
    ensures Cell(2) == 2
  {
  }

  lemma SlotTwo(m: Machine, n: nat, due: map<nat, Reg>)
    requires RingOk(m, n, due) && due.Keys == {2}
    ensures m.s.ring[2] == due[2].p
  {
    assert Cell(2) == 2;
  }

  lemma LineCat(n: nat)
    requires 1 <= n < |Stale()|
    ensures Run(Stale()[..n + 1]) == RunPiece(Run(Stale()[..n]), Cat)
    ensures |Stale()[..n + 1]| - 1 == n && Stale()[..n + 1][..n] == Stale()[..n]
  {
    hide Run, RunPiece;
    PrefixFacts(n + 1);
    RunStep(Stale()[..n + 1]);
    assert Stale()[..n + 1][..n] == Stale()[..n];
  }

  /** Line 2 closes 5 and 6; line 3 gets them for its barrier pipe, and keeps them open. */
  lemma ThirdLine()
    ensures 3 <= |Stale()|
    ensures var m := Run(Stale()[..3]);
            5 in m.k.fds && m.k.fds[5].obj == ReadEnd(Run(Stale()[..2]).k.pipes) && m.s.ring[2] == Ends(5, 6)
  {
    hide Run, RunPiece, Idle, Stale, FrontOk, RingOk;
    StaleSlot();
    FirstLine();
    assert Stale()[..1] == [Delay] by { StaleHead(); }
    var due1 := FrontAt(1);
    LineCat(1);
    var m1 := Run(Stale()[..1]);
    assert m1.s.ring[2] == Ends(5, 6) && Front(m1) == Ends(5, 6);
    PlainPiece(m1, Cat);
    assert SE.Lowest(m1.k.fds.Keys, 3, 4);
    SE.NewAt(m1.k.fds, m1.k.pipes, 3, 4);
    var m2 := Run(Stale()[..2]);
    assert m2.k.fds.Keys == {0, 1, 2, 3, 4};
    var due2 := FrontAt(2);
    LineCat(2);
    PlainPiece(m2, Cat);
    assert SE.Lowest(m2.k.fds.Keys, 5, 6);
    SE.NewAt(m2.k.fds, m2.k.pipes, 5, 6);
  }

  lemma StaleHead()
    ensures Stale() != [] && Stale()[..1] == [Delay]
  {
  }

  /** All further lines leave descriptor 5 and slot 2 as they are. */
  lemma LineKeeps(n: nat)
    requires 3 <= n < |Stale()| && 5 in Run(Stale()[..n]).k.fds
    ensures var m, r := Run(Stale()[..n]), Run(Stale()[..n + 1]);
            5 in r.k.fds && r.k.fds[5] == m.k.fds[5] && r.s.ring == m.s.ring
  {
    hide Run, RunPiece, WellFormed, NoReuse, Idle, FrontOk, RingOk, Stale;
    StaleSlot();
    PrefixFacts(n + 1);
    LineCat(n);
    var due := FrontAt(n);
    assert Keys(NoEnds) == {};
    Undisturbed(Stale()[..n + 1], 5);
    PlainPiece(Run(Stale()[..n]), Cat);
  }

  lemma {:induction false} StillThere(n: nat)
    requires 3 <= n <= |Stale()|
    ensures var m := Run(Stale()[..n]);
            5 in m.k.fds && m.k.fds[5].obj == ReadEnd(Run(Stale()[..2]).k.pipes) && m.s.ring[2] == Ends(5, 6)
    decreases n
  {
    hide Run, Stale;
    if n == 3 {
      ThirdLine();
    } else {
      StillThere(n - 1);
      LineKeeps(n - 1);
    }
  }

  /** The child of a piece of one program reads what the front of the ring names. */
  lemma FirstReads(m: Machine)
    requires |m.s.ring| == SIZE && Idle(m)
    requires var q := Front(m); 3 <= q.rd && 3 <= q.wr && q.rd in m.k.fds
    ensures var kids := RunPiece(m, Cat).k.kids; var u := |m.k.kids|;
            |kids| == u + 1 && In(kids[u]) == m.k.fds[Front(m).rd].obj
  {
    OnlyStage(m, Cat);
    var argv := ArgvOf(Cat, 0);
    var m1 := Begin(m);
    PipeEffect(m.k);
    CloseEffect(m1.k, m1.s.prev);
    var t := m1.k.fds;
    var q := Front(m);
    assert m1.k.fds - Keys(NoEnds) == t;
    assert LinkOf(Cat, 0) == NoLink;
    var m3 := Spawn(Shift(m1), false, argv);
    assert StdOpen(t);
    ChildView(t, q, q, false, argv);
    assert m3.k.kids == m.k.kids + [Child(t, ChildProgram(q, q, false, argv))] by { hide View, ExecTable, ChildProgram; }
    FinishKids(m3, false);
  }

  /** After `ls |1` and as many plain lines as there are slots, nothing has been sent to the next
      line; yet its program reads a pipe: the barrier pipe of line 3. */
  lemma StaleChild()
    ensures var ps := Stale(); var kids := Run(ps + [Cat]).k.kids; var u := |Run(ps).k.kids|;
            && Senders(ps, |ps| + 1) == {}
            && 2 <= |ps| && |kids| == u + 1 && In(kids[u]) == ReadEnd(Run(ps[..2]).k.pipes)
  {
    hide Run, RunPiece, Stale, WellFormed, NoReuse, Idle, RingOk, FrontOk, In;
    StalePipe();
    StaleSlot();
    var ps := Stale();
    assert ps[..|ps|] == ps;
    StillThere(|ps|);
    var m := Run(ps);
    PrefixFacts(|ps|);
    var due := RunOk(ps);
    LastFront(m, due);
    RunStep(ps + [Cat]);
    assert (ps + [Cat])[..|ps|] == ps;
    FirstReads(m);
  }

  lemma LastFront(m: Machine, due: map<nat, Reg>)
    requires RingOk(m, SIZE + 1, due)
    ensures Front(m) == m.s.ring[2]
  {
    NextSlot(SIZE + 1);
  }
}
