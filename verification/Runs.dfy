/**
 Whole runs: the ring of delayed pipes agrees with the unbounded map from target lines to pipes
 as long as no slot is used for two different lines, and every piece leaves it so.
 */
module Runs {
  import opened Kernel
  import opened Pipes
  import opened Shell
  import opened Ownership
  import opened Pieces
  import opened PieceRuns

  /** A delayed pipe: the numbers the ring keeps and the pipe's identity. */
  datatype Reg = Reg(p: Ends, id: nat)

  /** The slot of a line. */
  function Cell(x: nat): (c: nat)
    ensures c < SIZE
  {
    x % SIZE
  }

  /** The ring is due folded onto its slots, one line to a slot. */
  ghost predicate Folds(ring: seq<Ends>, due: map<nat, Reg>) {
    && |ring| == SIZE
    && (forall x :: x in due ==> ring[Cell(x)] == due[x].p && due[x].p != NoEnds)
    && (forall c :: 0 <= c < SIZE && ring[c] != NoEnds ==> exists x :: x in due && Cell(x) == c)
    && (forall x, y :: x in due && y in due && x != y ==> Cell(x) != Cell(y))
  }

  /** After line pieces, due maps every line targeted so far to its pipe; the pipes of the lines in
      cut have been closed. */
  ghost predicate RingBut(m: Machine, line: nat, due: map<nat, Reg>, cut: set<nat>) {
    && |m.s.ring| == SIZE && Folds(m.s.ring, due) && m.s.head == Cell(line)
    && (forall x, y :: x in due && y in due && x != y ==> due[x].id != due[y].id)
    && (forall x :: x in due ==> due[x].id < m.k.pipes)
    && (forall x :: x in due && line < x && x !in cut ==> Owns(m.k.fds, due[x].p, due[x].id))
    && cut <= due.Keys && (forall x :: x in cut ==> Lacks(m.k.fds, due[x].id))
  }

  ghost predicate RingOk(m: Machine, line: nat, due: map<nat, Reg>) {
    RingBut(m, line, due, {})
  }

  /** No other line in due shares the slot of line x. */
  ghost predicate Clean(due: map<nat, Reg>, x: nat) {
    forall y :: y in due && y != x ==> Cell(y) != Cell(x)
  }

  lemma NextSlot(line: nat)
    ensures NextHead(Cell(line)) == Cell(line + 1)
  {
  }

  lemma TargetSlot(line: nat, n: nat)
    ensures Slot(Cell(line), n) == Cell(line + n)
  {
  }

  /** The slot of line x holds the pipe of line x if there is one, and is empty otherwise. */
  lemma SlotHolds(m: Machine, line: nat, due: map<nat, Reg>, cut: set<nat>, x: nat)
    requires RingBut(m, line, due, cut) && Clean(due, x)
    ensures m.s.ring[Cell(x)] == if x in due then due[x].p else NoEnds
  {
  }

  lemma FrontBut(m: Machine, line: nat, due: map<nat, Reg>, cut: set<nat>)
    requires RingBut(m, line, due, cut) && Clean(due, line + 1) && line + 1 !in cut
    ensures Front(m) == if line + 1 in due then due[line + 1].p else NoEnds
    ensures FrontOk(m)
  {
    NextSlot(line);
    SlotHolds(m, line, due, cut, line + 1);
    if line + 1 in due {
      assert Owns(m.k.fds, due[line + 1].p, due[line + 1].id);
    }
  }

  lemma FrontDue(m: Machine, line: nat, due: map<nat, Reg>)
    requires RingOk(m, line, due) && Clean(due, line + 1)
    ensures Front(m) == if line + 1 in due then due[line + 1].p else NoEnds
    ensures FrontOk(m)
  {
    FrontBut(m, line, due, {});
  }

  lemma OwnsApart(t: Table, p: Ends, id: nat, q: Ends, id': nat)
    requires Owns(t, p, id) && Owns(t, q, id') && id != id'
    ensures Keys(p) !! Keys(q) && Owns(t - Keys(q), p, id)
  {
  }

  lemma TargetBut(m: Machine, line: nat, due: map<nat, Reg>, cut: set<nat>, n: int)
    requires RingBut(m, line, due, cut) && Clean(due, line + 1) && 1 <= n && Clean(due, line + 1 + n)
    requires line + 1 !in cut && line + 1 + n !in cut
    ensures TargetOk(m, n)
    ensures Slot(m.s.head, n + 1) == Cell(line + 1 + n)
    ensures m.s.ring[Slot(m.s.head, n + 1)] == if line + 1 + n in due then due[line + 1 + n].p else NoEnds
    ensures line + 1 + n in due ==> due[line + 1 + n].p != NoEnds
  {
    var x: nat := line + 1 + n;
    TargetSlot(line, n + 1);
    SlotHolds(m, line, due, cut, x);
    FrontBut(m, line, due, cut);
    if x in due && line + 1 in due {
      OwnsApart(m.k.fds, due[x].p, due[x].id, due[line + 1].p, due[line + 1].id);
    }
  }

  lemma TargetDue(m: Machine, line: nat, due: map<nat, Reg>, n: int)
    requires RingOk(m, line, due) && Clean(due, line + 1) && 1 <= n && Clean(due, line + 1 + n)
    ensures TargetOk(m, n)
    ensures Slot(m.s.head, n + 1) == Cell(line + 1 + n)
    ensures m.s.ring[Slot(m.s.head, n + 1)] == if line + 1 + n in due then due[line + 1 + n].p else NoEnds
    ensures line + 1 + n in due ==> due[line + 1 + n].p != NoEnds
  {
    TargetBut(m, line, due, {}, n);
  }

  /** The pipes of later lines survive when the due pipe is closed. */
  lemma OthersStay(m: Machine, line: nat, due: map<nat, Reg>, x: nat)
    requires RingOk(m, line, due) && Clean(due, line + 1) && x in due && line + 1 < x
    ensures Owns(m.k.fds - Keys(Front(m)), due[x].p, due[x].id)
  {
    FrontDue(m, line, due);
    if line + 1 in due {
      OwnsApart(m.k.fds, due[x].p, due[x].id, due[line + 1].p, due[line + 1].id);
    }
  }

  lemma PlainRing(m: Machine, line: nat, due: map<nat, Reg>, cmds: seq<Command>)
    requires Idle(m) && RingOk(m, line, due) && Clean(due, line + 1)
    requires Alternating(cmds) && NoUser(cmds) && !EndsNumbered(cmds)
    ensures RingOk(RunPiece(m, cmds), line + 1, due)
  {
    FrontDue(m, line, due);
    PlainPiece(m, cmds);
    NextSlot(line);
    var r := RunPiece(m, cmds);
    forall x | x in due && line + 1 < x
      ensures Owns(r.k.fds, due[x].p, due[x].id)
    {
      OthersStay(m, line, due, x);
    }
  }

  /** The line a piece ending in `|n` or `!n` delays its output to. */
  function TargetLine(line: nat, cmds: seq<Command>): (x: nat)
    requires EndsNumbered(cmds) && 1 <= cmds[|cmds| - 1].n
  {
    line + 1 + cmds[|cmds| - 1].n
  }

  predicate Delays(cmds: seq<Command>) {
    EndsNumbered(cmds) && 1 <= cmds[|cmds| - 1].n
  }

  /** The delayed pipes after a piece: a piece ending in `|n` adds the pipe of its target line
      unless the line has one already. */
  ghost function DueAfter(due: map<nat, Reg>, line: nat, cmds: seq<Command>, r: Machine): map<nat, Reg>
    requires 0 < r.k.pipes
  {
    if Delays(cmds) && TargetLine(line, cmds) !in due then
      due[TargetLine(line, cmds) := Reg(r.s.curr, r.k.pipes - 1)]
    else due
  }

  lemma AddKeeps(t: Table, p: Ends, id: nat, q: Ends, id': nat)
    requires Owns(t, p, id) && id != id' && q.rd !in t && q.wr !in t
    ensures Owns(AddPipe(t, q, id'), p, id)
  {
  }

  lemma AddOwns(t: Table, pipes: nat, q: Ends, id: nat)
    requires (forall fd :: fd in t ==> Below(t[fd].obj, pipes)) && pipes <= id
    requires 3 <= q.rd && 3 <= q.wr && q.rd != q.wr
    ensures Owns(AddPipe(t, q, id), q, id)
  {
  }

  lemma TargetOwns(m: Machine, line: nat, due: map<nat, Reg>, cmds: seq<Command>, r: Machine, y: nat)
    requires TableOk(m.k.fds, m.k.pipes) && RingOk(m, line, due) && Clean(due, line + 1)
    requires Delays(cmds) && Clean(due, TargetLine(line, cmds))
    requires NumberedEffect(m, r, cmds)
    requires var due' := DueAfter(due, line, cmds, r); y in due' && line + 1 < y
    ensures var due' := DueAfter(due, line, cmds, r); Owns(r.k.fds, due'[y].p, due'[y].id)
  {
    hide Cell, TableOk, StdOpen, Owns;
    TargetDue(m, line, due, cmds[|cmds| - 1].n);
    var rest := m.k.fds - Keys(Front(m));
    if y in due {
      OthersStay(m, line, due, y);
      if TargetLine(line, cmds) !in due {
        AddKeeps(rest, due[y].p, due[y].id, r.s.curr, r.k.pipes - 1);
      }
    } else {
      assert forall fd :: fd in m.k.fds ==> Below(m.k.fds[fd].obj, m.k.pipes) by { TableBelow(m); }
      AddOwns(rest, m.k.pipes, r.s.curr, r.k.pipes - 1);
    }
  }

  lemma TableBelow(m: Machine)
    requires TableOk(m.k.fds, m.k.pipes)
    ensures forall fd :: fd in m.k.fds ==> Below(m.k.fds[fd].obj, m.k.pipes)
  {
  }

  lemma FoldsAfter(ring: seq<Ends>, due: map<nat, Reg>, x: nat, reg: Reg)
    requires Folds(ring, due) && Clean(due, x) && x !in due && reg.p != NoEnds
    ensures Folds(ring[Cell(x) := reg.p], due[x := reg])
  {
    hide Cell;
    var ring' := ring[Cell(x) := reg.p];
    var due' := due[x := reg];
    forall c | 0 <= c < SIZE && ring'[c] != NoEnds
      ensures exists y :: y in due' && Cell(y) == c
    {
      if c == Cell(x) {
        assert x in due';
      } else {
        var y :| y in due && Cell(y) == c;
        assert y in due';
      }
    }
  }

  lemma TargetRing(m: Machine, line: nat, due: map<nat, Reg>, cmds: seq<Command>, r: Machine)
    requires TableOk(m.k.fds, m.k.pipes) && RingOk(m, line, due) && Clean(due, line + 1)
    requires Delays(cmds) && Clean(due, TargetLine(line, cmds))
    requires NumberedEffect(m, r, cmds)
    ensures 0 < r.k.pipes && RingOk(r, line + 1, DueAfter(due, line, cmds, r))
  {
    hide Cell, TableOk, Owns, Folds;
    var n := cmds[|cmds| - 1].n;
    var x := TargetLine(line, cmds);
    TargetDue(m, line, due, n);
    NextSlot(line);
    var due' := DueAfter(due, line, cmds, r);
    forall y | y in due' && line + 1 < y
      ensures Owns(r.k.fds, due'[y].p, due'[y].id)
    {
      TargetOwns(m, line, due, cmds, r, y);
    }
    if x !in due {
      FoldsAfter(m.s.ring, due, x, due'[x]);
      assert r.s.ring == m.s.ring[Cell(x) := due'[x].p];
    } else {
      assert r.s.ring == m.s.ring;
    }
  }

  lemma NumberedRing(m: Machine, line: nat, due: map<nat, Reg>, cmds: seq<Command>)
    requires Idle(m) && RingOk(m, line, due) && Clean(due, line + 1)
    requires Alternating(cmds) && NoUser(cmds) && Delays(cmds) && Clean(due, TargetLine(line, cmds))
    ensures var r := RunPiece(m, cmds);
            0 < r.k.pipes && RingOk(r, line + 1, DueAfter(due, line, cmds, r))
  {
    hide RingOk, Clean, NumberedEffect, RunPiece;
    FrontDue(m, line, due);
    TargetDue(m, line, due, cmds[|cmds| - 1].n);
    NumberedPiece(m, cmds);
    TargetRing(m, line, due, cmds, RunPiece(m, cmds));
  }
}
