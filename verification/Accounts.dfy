/** Every run keeps the ring in step with the delays and accounts for every open descriptor. */
module Accounts {
  import opened Kernel
  import opened Pipes
  import opened Shell
  import opened Ownership
  import opened Pieces
  import opened PieceRuns
  import opened Runs
  import opened Sets

  predicate WellFormed(ps: seq<seq<Command>>) {
    forall k :: 0 <= k < |ps| ==>
      Alternating(ps[k]) && NoUser(ps[k]) && (EndsNumbered(ps[k]) ==> Delays(ps[k]))
  }

  /** Piece j (line j + 1) delays its output to line x. */
  predicate Sends(ps: seq<seq<Command>>, j: nat, x: int) {
    j < |ps| && Delays(ps[j]) && TargetLine(j, ps[j]) == x
  }

  /** Piece k looks at the slot of line y: its own line, or the line it delays to. */
  predicate Uses(ps: seq<seq<Command>>, k: nat, y: int) {
    k < |ps| && (y == k + 1 || Sends(ps, k, y))
  }

  /** No piece uses the slot of a different line than one an earlier piece delayed to. */
  ghost predicate NoReuse(ps: seq<seq<Command>>) {
    forall j: nat, k: nat, x: nat, y: nat :: j < k && Sends(ps, j, x) && Uses(ps, k, y) && x != y ==>
      Cell(x) != Cell(y)
  }

  /** Two lines share a slot exactly if they are a multiple of 1024 lines apart. */
  lemma SharedSlot(x: nat, y: nat)
    ensures Cell(x) == Cell(y) <==> (x - y) % 1024 == 0
  {
  }

  /** While all lines and all lines they send to are at most 1024, no slot is used for two of them. */
  lemma ShortRuns(ps: seq<seq<Command>>)
    requires |ps| <= 1024 && forall j: nat, x: nat :: Sends(ps, j, x) ==> x <= 1024
    ensures NoReuse(ps)
  {
    forall j: nat, k: nat, x: nat, y: nat | j < k && Sends(ps, j, x) && Uses(ps, k, y) && x != y
      ensures Cell(x) != Cell(y)
    {
      SharedSlot(x, y);
    }
  }

  /** But 1024 lines after a line that something was sent to comes one with the same slot. */
  lemma LongRuns(ps: seq<seq<Command>>, j: nat, x: nat)
    requires Sends(ps, j, x) && x + 1024 <= |ps|
    ensures !NoReuse(ps)
  {
    var k: nat, y: nat := x + 1023, x + 1024;
    assert Uses(ps, k, y);
    SharedSlot(x, y);
  }

  /** due is defined on exactly the lines some piece has sent its output to. */
  ghost predicate Targets(ps: seq<seq<Command>>, due: map<nat, Reg>) {
    forall x: nat :: x in due <==> exists j: nat :: Sends(ps, j, x)
  }

  lemma PrefixFine(ps: seq<seq<Command>>, n: nat)
    requires n <= |ps| && WellFormed(ps) && NoReuse(ps)
    ensures WellFormed(ps[..n]) && NoReuse(ps[..n])
  {
    assert forall j: nat, x :: Sends(ps[..n], j, x) ==> Sends(ps, j, x);
    assert forall j: nat, x :: Uses(ps[..n], j, x) ==> Uses(ps, j, x);
  }

  lemma CleanNext(ps: seq<seq<Command>>, due: map<nat, Reg>)
    requires ps != [] && NoReuse(ps) && Targets(ps[..|ps| - 1], due)
    ensures Clean(due, |ps|)
    ensures Delays(ps[|ps| - 1]) ==> Clean(due, TargetLine(|ps| - 1, ps[|ps| - 1]))
  {
    var n := |ps| - 1;
    forall y | y in due
      ensures y != |ps| ==> Cell(y) != Cell(|ps|)
      ensures Delays(ps[n]) && y != TargetLine(n, ps[n]) ==> Cell(y) != Cell(TargetLine(n, ps[n]))
    {
      var j: nat :| Sends(ps[..n], j, y);
      assert Sends(ps, j, y);
      assert Uses(ps, n, |ps|);
      if Delays(ps[n]) { assert Uses(ps, n, TargetLine(n, ps[n])); }
    }
  }

  lemma TargetsNext(ps: seq<seq<Command>>, due: map<nat, Reg>, due': map<nat, Reg>)
    requires ps != [] && Targets(ps[..|ps| - 1], due)
    requires var n := |ps| - 1; due'.Keys == due.Keys + Target(n, ps[n])
    ensures Targets(ps, due')
  {
    var n := |ps| - 1;
    forall x: nat
      ensures x in due' <==> exists j: nat :: Sends(ps, j, x)
    {
      if x in due {
        var j: nat :| Sends(ps[..n], j, x);
        assert Sends(ps, j, x);
      }
      if j: nat :| Sends(ps, j, x) {
        if j < n { assert Sends(ps[..n], j, x); }
      }
      if x in due' && x !in due { assert Sends(ps, n, x); }
    }
  }

  lemma RunStep(ps: seq<seq<Command>>)
    requires ps != []
    ensures Run(ps) == RunPiece(Run(ps[..|ps| - 1]), ps[|ps| - 1])
  {
  }

  lemma StartOk()
    ensures Idle(Run([])) && RingOk(Run([]), 0, map[])
  {
  }

  function Target(line: nat, cmds: seq<Command>): set<nat> {
    if Delays(cmds) then {TargetLine(line, cmds)} else {}
  }

  lemma PieceStep(m: Machine, line: nat, due: map<nat, Reg>, cmds: seq<Command>) returns (due': map<nat, Reg>)
    requires |m.s.ring| == SIZE && Idle(m) && RingOk(m, line, due) && Clean(due, line + 1)
    requires Alternating(cmds) && NoUser(cmds)
    requires EndsNumbered(cmds) ==> Delays(cmds) && Clean(due, TargetLine(line, cmds))
    ensures Idle(RunPiece(m, cmds)) && RingOk(RunPiece(m, cmds), line + 1, due')
    ensures due'.Keys == due.Keys + Target(line, cmds)
    ensures 0 < RunPiece(m, cmds).k.pipes && due' == DueAfter(due, line, cmds, RunPiece(m, cmds))
  {
    hide RingOk, Idle, RunPiece, Clean;
    FrontDue(m, line, due);
    if EndsNumbered(cmds) {
      TargetDue(m, line, due, cmds[|cmds| - 1].n);
      NumberedPiece(m, cmds);
      NumberedRing(m, line, due, cmds);
      due' := DueAfter(due, line, cmds, RunPiece(m, cmds));
    } else {
      PlainPiece(m, cmds);
      PlainRing(m, line, due, cmds);
      due' := due;
    }
  }

  /** At the start of every piece the ring holds exactly the pipe due for its line. */
  lemma {:induction false} RunOk(ps: seq<seq<Command>>) returns (due: map<nat, Reg>)
    requires WellFormed(ps) && NoReuse(ps)
    ensures Idle(Run(ps)) && RingOk(Run(ps), |ps|, due) && Targets(ps, due)
    decreases |ps|
  {
    if ps == [] {
      due := map[];
      StartOk();
    } else {
      hide RingOk, Idle, Run, RunPiece, NoReuse;
      var n := |ps| - 1;
      PrefixFine(ps, n);
      var before := RunOk(ps[..n]);
      RunStep(ps);
      CleanNext(ps, before);
      due := PieceStep(Run(ps[..n]), n, before, ps[n]);
      TargetsNext(ps, before, due);
    }
  }

  lemma AddSize(t: Table, p: Ends, id: nat)
    requires p.rd !in t && p.wr !in t && p.rd != p.wr
    ensures |AddPipe(t, p, id)| == |t| + 2
  {
    assert AddPipe(t, p, id).Keys == t.Keys + {p.rd} + {p.wr};
  }

  lemma DropSize(t: Table, q: Ends)
    requires q == NoEnds || (Keys(q) == {q.rd, q.wr} && q.rd != q.wr && q.rd in t && q.wr in t)
    ensures |t - Keys(q)| == |t| - if q == NoEnds then 0 else 2
  {
    assert (t - Keys(q)).Keys == t.Keys - Keys(q);
    if q != NoEnds { assert t.Keys - Keys(q) == t.Keys - {q.rd} - {q.wr}; }
  }

  function DueSize(due: map<nat, Reg>, x: nat): nat {
    if x in due then 2 else 0
  }

  /** The due pipe is either absent or two open descriptors. */
  lemma FrontSize(m: Machine, line: nat, due: map<nat, Reg>)
    requires RingOk(m, line, due) && Clean(due, line + 1)
    ensures var q := Front(m);
            && (q == NoEnds || (Keys(q) == {q.rd, q.wr} && q.rd != q.wr && q.rd in m.k.fds && q.wr in m.k.fds))
            && |m.k.fds - Keys(q)| == |m.k.fds| - DueSize(due, line + 1)
  {
    FrontDue(m, line, due);
    DropSize(m.k.fds, Front(m));
  }

  lemma NumberedCount(m: Machine, line: nat, due: map<nat, Reg>, cmds: seq<Command>)
    requires |m.s.ring| == SIZE && Idle(m) && RingOk(m, line, due) && Clean(due, line + 1)
    requires Alternating(cmds) && NoUser(cmds) && Delays(cmds) && Clean(due, TargetLine(line, cmds))
    ensures |RunPiece(m, cmds).k.fds| == |m.k.fds| - DueSize(due, line + 1) + 2 - DueSize(due, TargetLine(line, cmds))
  {
    hide Idle, RunPiece, Clean, RingOk, Alternating, NoUser, Cell;
    FrontSize(m, line, due);
    FrontDue(m, line, due);
    TargetDue(m, line, due, cmds[|cmds| - 1].n);
    NumberedPiece(m, cmds);
    var r := RunPiece(m, cmds);
    if TargetLine(line, cmds) !in due {
      AddSize(m.k.fds - Keys(Front(m)), r.s.curr, r.k.pipes - 1);
    }
  }

  lemma PlainCount(m: Machine, line: nat, due: map<nat, Reg>, cmds: seq<Command>)
    requires |m.s.ring| == SIZE && Idle(m) && RingOk(m, line, due) && Clean(due, line + 1)
    requires Alternating(cmds) && NoUser(cmds) && !EndsNumbered(cmds)
    ensures |RunPiece(m, cmds).k.fds| == |m.k.fds| - DueSize(due, line + 1) + 2
  {
    hide Idle, RunPiece, Clean, RingOk, Alternating, NoUser, Cell;
    FrontSize(m, line, due);
    FrontDue(m, line, due);
    PlainPiece(m, cmds);
    var p := NewEnds(m.k.fds, m.k.pipes);
    AddSize(m.k.fds, p, m.k.pipes);
    DropSize(AddPipe(m.k.fds, p, m.k.pipes), Front(m));
    DropSize(m.k.fds, Front(m));
  }

  /** The lines after the last piece that have output waiting for them. */
  function Pending(ps: seq<seq<Command>>): set<nat> {
    set j: nat | j < |ps| && Delays(ps[j]) && |ps| < TargetLine(j, ps[j]) :: TargetLine(j, ps[j])
  }

  /** The pieces that do not end in a numbered pipe. */
  function Plain(ps: seq<seq<Command>>): set<nat> {
    set j: nat | j < |ps| && !EndsNumbered(ps[j])
  }

  lemma PendingStep(ps: seq<seq<Command>>, before: map<nat, Reg>)
    requires ps != [] && Targets(ps[..|ps| - 1], before)
    ensures var n := |ps| - 1;
            Pending(ps) == Pending(ps[..n]) - {n + 1} + Target(n, ps[n])
            && (n + 1 in before <==> n + 1 in Pending(ps[..n]))
            && (Delays(ps[n]) ==> (TargetLine(n, ps[n]) in before <==> TargetLine(n, ps[n]) in Pending(ps[..n])))
  {
    var n := |ps| - 1;
    forall x: nat | n < x
      ensures x in before <==> x in Pending(ps[..n])
    {
      if x in before {
        var j: nat :| Sends(ps[..n], j, x);
        assert TargetLine(j, ps[..n][j]) in Pending(ps[..n]);
      }
      if x in Pending(ps[..n]) {
        var j: nat :| j < n && Delays(ps[..n][j]) && TargetLine(j, ps[..n][j]) == x;
        assert Sends(ps[..n], j, x);
      }
    }
    forall x: nat
      ensures x in Pending(ps) <==> x in Pending(ps[..n]) - {n + 1} + Target(n, ps[n])
    {
      if x in Pending(ps) {
        var j: nat :| j <= n && Delays(ps[j]) && TargetLine(j, ps[j]) == x;
        if j < n { assert ps[..n][j] == ps[j]; }
      }
      if x in Pending(ps[..n]) && x != n + 1 {
        var j: nat :| j < n && Delays(ps[..n][j]) && TargetLine(j, ps[..n][j]) == x;
        assert ps[..n][j] == ps[j];
      }
      if x in Target(n, ps[n]) { assert TargetLine(n, ps[n]) == x; }
    }
  }

  lemma PlainStep(ps: seq<seq<Command>>)
    requires ps != []
    ensures var n := |ps| - 1; |Plain(ps)| == |Plain(ps[..n])| + if EndsNumbered(ps[n]) then 0 else 1
  {
    var n := |ps| - 1;
    assert Plain(ps) == Plain(ps[..n]) + if EndsNumbered(ps[n]) then {} else {n as nat};
  }

  lemma SetStep(a: set<nat>, b: set<nat>, x: nat, t: set<nat>)
    requires b == a - {x} + t && x !in t && |t| <= 1
    ensures |b| == |a| - (if x in a then 1 else 0) + (if t <= a then 0 else 1)
  {
    assert |a - {x}| == |a| - if x in a then 1 else 0;
    if t <= a {
      assert b == a - {x};
    } else {
      var y :| y in t && y !in a;
      assert t == {y} by {
        assert |{y}| <= |t|;
        if z :| z in t && z != y { assert {y, z} <= t; SubsetSize({y, z}, t); }
      }
      assert b == a - {x} + {y};
    }
  }

  lemma PendingSize(ps: seq<seq<Command>>, before: map<nat, Reg>)
    requires ps != [] && Targets(ps[..|ps| - 1], before)
    ensures var n := |ps| - 1;
            2 * |Pending(ps)| == 2 * |Pending(ps[..n])| - DueSize(before, n + 1)
              + if Delays(ps[n]) then 2 - DueSize(before, TargetLine(n, ps[n])) else 0
  {
    hide Pending, Targets;
    var n := |ps| - 1;
    PendingStep(ps, before);
    SetStep(Pending(ps[..n]), Pending(ps), n + 1, Target(n, ps[n]));
  }

  lemma CountStep(ps: seq<seq<Command>>, before: map<nat, Reg>)
    requires ps != [] && WellFormed(ps) && NoReuse(ps)
    requires var n := |ps| - 1; var m := Run(ps[..n]);
             Idle(m) && RingOk(m, n, before) && Targets(ps[..n], before)
    ensures var n := |ps| - 1;
            |Run(ps).k.fds| == |Run(ps[..n]).k.fds| - DueSize(before, n + 1)
              + if Delays(ps[n]) then 2 - DueSize(before, TargetLine(n, ps[n])) else 2
  {
    hide RingOk, Idle, Run, RunPiece, NoReuse;
    var n := |ps| - 1;
    var cmds := ps[n];
    RunStep(ps);
    CleanNext(ps, before);
    if EndsNumbered(cmds) {
      NumberedCount(Run(ps[..n]), n, before, cmds);
    } else {
      PlainCount(Run(ps[..n]), n, before, cmds);
    }
  }

  /** Exact accounting: besides the three standard descriptors the shell holds two for each
      later line that has output waiting and two for each piece not ending in a numbered pipe. */
  lemma {:induction false} OpenCount(ps: seq<seq<Command>>)
    requires WellFormed(ps) && NoReuse(ps)
    ensures |Run(ps).k.fds| == 3 + 2 * |Pending(ps)| + 2 * |Plain(ps)|
    decreases |ps|
  {
    if ps == [] {
      assert Run(ps).k.fds.Keys == {0, 1, 2};
    } else {
      hide RingOk, Idle, Run, NoReuse, Pending, Plain, DueSize;
      var n := |ps| - 1;
      PrefixFine(ps, n);
      var before := RunOk(ps[..n]);
      OpenCount(ps[..n]);
      CountStep(ps, before);
      PendingSize(ps, before);
      PlainStep(ps);
    }
  }

  /** Executing a piece leaves every descriptor the shell already had exactly as it was, except
      the two ends of the pipe due for the piece; no close, not even the repeated one through an
      aliased pipe variable, hits anybody else's. */
  lemma Undisturbed(ps: seq<seq<Command>>, fd: int)
    requires ps != [] && WellFormed(ps) && NoReuse(ps)
    requires var m := Run(ps[..|ps| - 1]); fd in m.k.fds && fd !in Keys(Front(m))
    ensures fd in Run(ps).k.fds && Run(ps).k.fds[fd] == Run(ps[..|ps| - 1]).k.fds[fd]
  {
    hide RingOk, Idle, Run, RunPiece, NoReuse, Alternating, NoUser;
    var n := |ps| - 1;
    var m := Run(ps[..n]);
    var cmds := ps[n];
    PrefixFine(ps, n);
    var before := RunOk(ps[..n]);
    RunStep(ps);
    CleanNext(ps, before);
    FrontDue(m, n, before);
    if EndsNumbered(cmds) {
      TargetDue(m, n, before, cmds[|cmds| - 1].n);
      NumberedPiece(m, cmds);
      assert fd in m.k.fds - Keys(Front(m));
    } else {
      PlainPiece(m, cmds);
    }
  }
}
