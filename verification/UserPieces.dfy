/** The whole effect of a user's piece on descriptors, ring and user pipes. */
module UserPieces {
  import opened Kernel
  import opened Pipes
  import opened Shell
  import opened Ownership
  import opened Pieces
  import opened PieceRuns
  import opened Runs
  import opened UserShell
  import opened UserPipes
  import opened UserStages

  /** The pipes a piece takes over: the one due for it, or the user pipe it reads. */
  ghost function Taken(f: Flight, live: set<nat>, user: nat, readUid: int): set<nat>
    requires |f.m.s.ring| == SIZE
  {
    if readUid <= 0 then
      (if Front(f.m) == NoEnds then {} else {IdAt(f.m.k.fds, Front(f.m).rd)})
    else if Exists(live, readUid) && (user, readUid as nat) in f.pipes then
      {if Mailbox(f.notes, readUid, user).Full? then Mailbox(f.notes, readUid, user).id else 0}
    else {}
  }

  /** Between two pieces, in the process shared by all users. */
  ghost predicate UIdle(f: Flight, live: set<nat>) {
    Idle(f.m) && PipesOk(f.pipes, f.notes, f.m.k.fds, f.m.k.pipes, live) && Alternate(f.notes)
  }

  lemma OwnsId(t: Table, p: Ends, id: nat)
    requires Owns(t, p, id)
    ensures IdAt(t, p.rd) == id && p != NoEnds
  {
  }

  /** A piece that reads no user pipe starts with the pipe due for it. */
  lemma UBeginPlain(f: Flight, live: set<nat>, user: nat, readUid: int) returns (base: Table)
    requires UIdle(f, live) && FrontOk(f.m) && readUid <= 0
    requires forall r: nat, s: nat :: (r, s) in f.pipes ==> Mailbox(f.notes, s, r).id !in Taken(f, live, user, readUid)
    ensures var f1 := UBegin(f, live, user, readUid);
            && UGoing(f1.m, f1, base, f.m.k.pipes, 0, live)
            && Frame(f.m.k.fds, base, f.m.k.pipes, Taken(f, live, user, readUid))
            && Begun(f.m, f1.m)
  {
    var f1 := f.(m := Begin(f.m));
    var q := Front(f.m);
    base := f1.m.k.fds - Keys(q);
    UPrepared(f, live);
    hide Mailbox, Alternate, View, Loop, Barrier;
    if q != NoEnds {
      var id: nat :| Owns(f.m.k.fds, q, id);
      OwnsId(f.m.k.fds, q, id);
      assert Owns(f1.m.k.fds, q, id) by { OwnsBelow(f.m, q, id); }
      FrameDrop(f1.m.k.fds, q, id, f1.m.k.pipes);
      FrameUnion(f.m.k.fds, f1.m.k.fds, base, f.m.k.pipes, f1.m.k.pipes, id);
      PipesFrame(f.pipes, f.notes, f1.m.k.fds, base, f1.m.k.pipes, f1.m.k.pipes, live, {id});
    } else {
      assert base == f1.m.k.fds;
    }
  }

  lemma OwnsBelow(m: Machine, p: Ends, id: nat)
    requires TableOk(m.k.fds, m.k.pipes) && Owns(m.k.fds, p, id)
    ensures id < m.k.pipes
  {
  }

  lemma FrameUnion(a: Table, b: Table, c: Table, np: nat, np': nat, id: nat)
    requires Frame(a, b, np, {}) && Frame(b, c, np', {id}) && np <= np'
    ensures Frame(a, c, np, {id})
  {
  }

  lemma UBeginRead(f: Flight, live: set<nat>, user: nat, readUid: int) returns (base: Table)
    requires UIdle(f, live) && FrontOk(f.m) && 0 < readUid
    ensures var f1 := UBegin(f, live, user, readUid);
            && UGoing(f1.m, f1, base, f.m.k.pipes, 0, live)
            && Frame(f.m.k.fds, base, f.m.k.pipes, Taken(f, live, user, readUid))
            && Begun(f.m, f1.m)
  {
    hide Alternate, View, Loop, Barrier, Mailbox, UGoing, Owns;
    var f1 := f.(m := Begin(f.m));
    UPrepared(f, live);
    if Exists(live, readUid) && (user, readUid as nat) in f.pipes {
      OwnedIn(f.pipes, f.notes, f.m.k.fds, f.m.k.pipes, live, user, readUid);
      OwnedIn(f1.pipes, f1.notes, f1.m.k.fds, f1.m.k.pipes, live, user, readUid);
      var id := Mailbox(f.notes, readUid, user).id;
      var p := f.pipes[(user, readUid as nat)];
      hide PipesOk;
      ReadUserOk(f.m, f1, live, user, readUid);
      FrameDrop(f1.m.k.fds, p, id, f1.m.k.pipes);
      base := f1.m.k.fds - Keys(p);
      FrameUnion(f.m.k.fds, f1.m.k.fds, base, f.m.k.pipes, f1.m.k.pipes, id);
    } else {
      ReadNullOk(f.m, f1, live);
      base := f1.m.k.fds;
    }
  }

  /** The effect of a piece on everything but its own ring slots. */
  ghost predicate UEffect(f: Flight, r: Flight, p: Piece, live: set<nat>, user: nat)
    requires |f.m.s.ring| == SIZE
  {
    && UIdle(r, live) && Frame(f.m.k.fds, r.m.k.fds, f.m.k.pipes, Taken(f, live, user, p.readUid))
    && r.m.s.head == NextHead(f.m.s.head) && f.m.k.pipes <= r.m.k.pipes && f.m.k.kids <= r.m.k.kids
  }

  /** What a piece does to its ring: nothing, or its target slot keeps its pipe or gets a new one. */
  ghost predicate URing(f: Flight, r: Flight, p: Piece)
    requires |f.m.s.ring| == SIZE
  {
    if !EndsNumbered(p.cmds) then r.m.s.ring == f.m.s.ring
    else
      var slot := Slot(f.m.s.head, p.cmds[|p.cmds| - 1].n + 1);
      && r.m.s.ring == f.m.s.ring[slot := r.m.s.curr]
      && if f.m.s.ring[slot] != NoEnds then r.m.s.curr == f.m.s.ring[slot]
         else
           && f.m.k.pipes < r.m.k.pipes && Owns(r.m.k.fds, r.m.s.curr, r.m.k.pipes - 1)
           && Unboxed(r.pipes, r.notes, r.m.k.pipes - 1)
  }

  lemma UPlainEnd(f1: Flight, f: Flight, base: Table, live: set<nat>, n: nat)
    requires UDone(f1.m, f, base, live, n)
    ensures var r := f.(m := Finish(f.m, false));
            && UIdle(r, live) && r.m.k.fds == base && r.m.k.pipes == f.m.k.pipes && r.m.k.kids == f.m.k.kids
            && r.m.s.ring == f1.m.s.ring && r.m.s.head == f1.m.s.head && f1.m.k.kids <= r.m.k.kids && f1.m.k.pipes <= r.m.k.pipes
  {
    hide PipesOk, Alternate, Sound, Gone;
    FinishPlain(f.m, base);
  }

  lemma UPlainPiece(f: Flight, live: set<nat>, user: nat, p: Piece, base: Table)
    requires |f.m.s.ring| == SIZE && UShape(p) && !EndsNumbered(p.cmds)
    requires var f1 := UBegin(f, live, user, p.readUid);
             |f1.m.s.ring| == SIZE && UGoing(f1.m, f1, base, f.m.k.pipes, 0, live) && Begun(f.m, f1.m)
             && Frame(f.m.k.fds, base, f.m.k.pipes, Taken(f, live, user, p.readUid))
    ensures UEffect(f, URun(f, live, user, p), p, live, user) && URing(f, URun(f, live, user, p), p)
  {
    hide UGoing, UDone, Frame, Taken, UBegin, UStages, UShape, UIdle, Finish;
    var f1 := UBegin(f, live, user, p.readUid);
    var base' := UPlainStages(f1, base, f.m.k.pipes, live, user, p);
    var f2 := UStages(f1, live, user, p, StageCount(p.cmds));
    UPlainEnd(f1, f2, base', live, StageCount(p.cmds));
    FrameTrans(f.m.k.fds, base, base', f.m.k.pipes, f1.m.k.pipes, Taken(f, live, user, p.readUid));
  }

  /** Dropping the barrier pipe. */
  lemma FrameEol(base: Table, eol: Ends, e: nat, np: nat)
    requires eol.rd in base && eol.wr in base && base[eol.rd].obj == ReadEnd(e) && base[eol.wr].obj == WriteEnd(e)
    ensures Frame(base, base - Keys(eol), np, {e})
  {
  }

  /** The table a piece ending in a numbered pipe leaves: without its barrier pipe, and with a new
      pipe if its target slot was empty. */
  ghost predicate LandTable(base: Table, eol: Ends, slotWas: Ends, q: Ends, np: nat, t: Table) {
    && (slotWas != NoEnds ==> t == base - Keys(eol))
    && (slotWas == NoEnds ==>
          && 3 <= q.rd && 3 <= q.wr && q.rd != q.wr && q.rd !in base && q.wr !in base
          && t == AddPipe(base - Keys(eol), q, np))
  }

  lemma LandPipes(f: Flight, base: Table, eol: Ends, e: nat, slotWas: Ends, q: Ends, np: nat, t: Table, live: set<nat>, np': nat)
    requires PipesOk(f.pipes, f.notes, base, np, live) && Unboxed(f.pipes, f.notes, e) && np <= np'
    requires eol.rd in base && eol.wr in base && base[eol.rd].obj == ReadEnd(e) && base[eol.wr].obj == WriteEnd(e)
    requires LandTable(base, eol, slotWas, q, np, t)
    ensures PipesOk(f.pipes, f.notes, t, np', live)
    ensures Frame(base, t, np, {e})
    ensures slotWas == NoEnds && (forall fd :: fd in base ==> Below(base[fd].obj, np)) ==>
              Owns(t, q, np) && Unboxed(f.pipes, f.notes, np)
  {
    var rest := base - Keys(eol);
    FrameEol(base, eol, e, np);
    UnboxedIds(f, base, np, live, e);
    hide Mailbox, Owns, Unboxed;
    PipesFrame(f.pipes, f.notes, base, rest, np, np, live, {e});
    if slotWas == NoEnds {
      FrameAdd(rest, q, np);
      PipesFrame(f.pipes, f.notes, rest, t, np, np', live, {});
      FrameAlso(base, rest, t, np, {e});
      if forall fd :: fd in base ==> Below(base[fd].obj, np) {
        AddOwns(rest, np, q, np);
        OldUnboxed(f.pipes, f.notes, base, np, live, np);
      }
    } else {
      PipesSelf(f.pipes, f.notes, t, np, np', live);
    }
  }

  lemma UnboxedIds(f: Flight, t: Table, np: nat, live: set<nat>, e: nat)
    requires PipesOk(f.pipes, f.notes, t, np, live) && Unboxed(f.pipes, f.notes, e)
    ensures forall r: nat, s: nat :: (r, s) in f.pipes ==> Mailbox(f.notes, s, r).id !in {e}
  {
  }

  lemma FrameAlso(a: Table, b: Table, c: Table, np: nat, gone: set<nat>)
    requires Frame(a, b, np, gone) && Frame(b, c, np, {})
    ensures Frame(a, c, np, gone)
  {
  }

  lemma EolInBase(m: Machine, base: Table, e: nat, first: nat)
    requires Loop(m, base) && Barrier(m, base, e, first)
    ensures m.s.eol.rd in base && m.s.eol.wr in base
    ensures base[m.s.eol.rd].obj == ReadEnd(e) && base[m.s.eol.wr].obj == WriteEnd(e)
    ensures Keys(m.s.eol) == {m.s.eol.rd, m.s.eol.wr}
  {
  }

  /** The last stage of a piece ending in a numbered pipe. */
  function LandNumbered(m: Machine, n: int, err: bool, argv: seq<string>): Machine
    requires |m.s.ring| == SIZE
  {
    Finish(Spawn(Connect(Shift(m), Via(Numbered(n, err))), err, argv), true)
  }

  lemma LandMachine(m0: Machine, m: Machine, base: Table, e: nat, j: nat, n: int, err: bool, argv: seq<string>)
    requires |m.s.ring| == SIZE && Going(m0, m, base, e, j)
    requires var p := m.s.ring[Slot(m.s.head, n)];
             p == NoEnds || (Holds(base, p) && Keys(p) !! Keys(m.s.eol))
    ensures var r := LandNumbered(m, n, err, argv); var slot := Slot(m.s.head, n);
            && Idle(r) && r.s.ring == m.s.ring[slot := r.s.curr] && r.s.head == m.s.head
            && m.k.kids <= r.k.kids && r.k.pipes == m.k.pipes + (if m.s.ring[slot] == NoEnds then 1 else 0)
            && LandTable(base, m.s.eol, m.s.ring[slot], r.s.curr, m.k.pipes, r.k.fds)
            && (m.s.ring[slot] != NoEnds ==> r.s.curr == m.s.ring[slot])
  {
    hide Slot, Idle, Barrier, Loop, Ready, Finish, Spawn, Connect, Sound, Gone;
    NumberedConnect(m0, m, base, e, j, n, err);
    var m3 := Connect(Shift(m), Via(Numbered(n, err)));
    LandOk(m3, base, e, |m0.k.kids|, err, argv);
    assert Shift(m).k.kids == m.k.kids && Shift(m).k.pipes == m.k.pipes by { CloseEffect(m.k, m.s.prev); }
    assert Shift(m).s == m.s.(prev := m.s.curr);
    var r := LandNumbered(m, n, err, argv);
    LandDiff(m3, r, base, m.s.ring[Slot(m.s.head, n)], m.k.pipes);
  }

  lemma LandDiff(m3: Machine, r: Machine, base: Table, slotWas: Ends, np: nat)
    requires Landed(m3, r) && Keys(m3.s.eol) !! Keys(m3.s.prev) + Keys(m3.s.curr)
    requires slotWas != NoEnds ==> m3.k.fds - Keys(m3.s.prev) == base
    requires var q := m3.s.curr; slotWas == NoEnds ==>
               3 <= q.rd && 3 <= q.wr && q.rd != q.wr && q.rd !in base && q.wr !in base
               && m3.k.fds - Keys(m3.s.prev) == AddPipe(base, q, np)
    ensures LandTable(base, m3.s.eol, slotWas, r.s.curr, np, r.k.fds)
  {
    var q := m3.s.curr;
    if slotWas == NoEnds {
      assert AddPipe(base, q, np) - Keys(m3.s.eol) == AddPipe(base - Keys(m3.s.eol), q, np);
    }
  }

  lemma FrameEnd(a: Table, b: Table, c: Table, np: nat, np': nat, gone: set<nat>, e: nat)
    requires Frame(a, b, np, gone) && Frame(b, c, np', {e}) && np <= e && np <= np'
    ensures Frame(a, c, np, gone)
  {
  }

  /** The target slot is empty, or names a pipe the piece does not take over. */
  ghost predicate UTargetOk(f: Flight, n: int, gone: set<nat>)
    requires |f.m.s.ring| == SIZE
  {
    var q := f.m.s.ring[Slot(f.m.s.head, n + 1)];
    q == NoEnds || exists id: nat :: Owns(f.m.k.fds, q, id) && id < f.m.k.pipes && id !in gone
  }

  lemma TargetHeld(f: Flight, base: Table, gone: set<nat>, m: Machine, e: nat, first: nat, q: Ends)
    requires Frame(f.m.k.fds, base, f.m.k.pipes, gone) && Loop(m, base) && Barrier(m, base, e, first) && f.m.k.pipes <= e
    requires q == NoEnds || exists id: nat :: Owns(f.m.k.fds, q, id) && id < f.m.k.pipes && id !in gone
    ensures q == NoEnds || (Holds(base, q) && Keys(q) !! Keys(m.s.eol))
  {
    EolInBase(m, base, e, first);
    hide Loop, Barrier;
    if q != NoEnds {
      var id: nat :| Owns(f.m.k.fds, q, id) && id < f.m.k.pipes && id !in gone;
      assert Owns(base, q, id);
    }
  }

  lemma UConnectIs(f: Flight, live: set<nat>, user: nat, writeUid: int, c: Command, argv: seq<string>)
    requires |f.m.s.ring| == SIZE && c.Numbered?
    ensures var r := UStage(f, live, user, writeUid, Via(c), argv);
            r.(m := Finish(r.m, true)) == f.(m := LandNumbered(f.m, c.n, c.err, argv))
  {
    hide Finish, Spawn, Shift, Connect;
  }

  /** How the state f2 before the last stage of a piece ending in a numbered pipe relates to the
      state f before the piece and the state f1 after its beginning. */
  ghost predicate Reached(f: Flight, f1: Flight, f2: Flight, e: nat, j: nat, base: Table, live: set<nat>, gone: set<nat>) {
    && UGoing(f1.m, f2, base, e, j, live)
    && Frame(f.m.k.fds, base, f.m.k.pipes, gone)
    && f2.m.s.ring == f.m.s.ring && f2.m.s.head == NextHead(f.m.s.head) && f2.m.s.eol == f1.m.s.eol
    && f.m.k.pipes < f2.m.k.pipes && f.m.k.kids <= f2.m.k.kids
  }

  ghost predicate Lands(r: Flight, f2: Flight, c: Command, argv: seq<string>)
    requires |f2.m.s.ring| == SIZE
  {
    c.Numbered? && r == f2.(m := LandNumbered(f2.m, c.n, c.err, argv))
  }

  lemma UReach(f: Flight, live: set<nat>, user: nat, p: Piece, f1: Flight, base: Table, gone: set<nat>)
    returns (f2: Flight, base': Table)
    requires |f.m.s.ring| == SIZE && UShape(p) && EndsNumbered(p.cmds)
    requires f1 == UBegin(f, live, user, p.readUid) && |f1.m.s.ring| == SIZE
    requires UGoing(f1.m, f1, base, f.m.k.pipes, 0, live) && Begun(f.m, f1.m)
    requires Frame(f.m.k.fds, base, f.m.k.pipes, gone)
    ensures 0 < StageCount(p.cmds) && |f2.m.s.ring| == SIZE
    ensures Reached(f, f1, f2, f.m.k.pipes, StageCount(p.cmds) - 1, base', live, gone)
    ensures Lands(URun(f, live, user, p), f2, p.cmds[|p.cmds| - 1], ArgvOf(p.cmds, StageCount(p.cmds) - 1))
    ensures f2 == UStages(f1, live, user, p, StageCount(p.cmds) - 1)
  {
    hide UGoing, Frame, Taken, UBegin, UStage, UShape, UIdle, LandNumbered, LinkOf;
    ULinks(p);
    var j := StageCount(p.cmds) - 1;
    base' := UStagesOk(f1, base, f.m.k.pipes, live, user, p, j);
    f2 := UStages(f1, live, user, p, j);
    GoingMore(f1.m, f2, base', f.m.k.pipes, j, live);
    FrameTrans(f.m.k.fds, base, base', f.m.k.pipes, f1.m.k.pipes, gone);
    UConnectIs(f2, live, user, p.writeUid, p.cmds[|p.cmds| - 1], ArgvOf(p.cmds, StageCount(p.cmds) - 1));
  }

  lemma ULand(f: Flight, f1: Flight, f2: Flight, base: Table, live: set<nat>, j: nat, n: int, err: bool, gone: set<nat>, argv: seq<string>)
    requires |f.m.s.ring| == SIZE == |f2.m.s.ring| && UGoing(f1.m, f2, base, f.m.k.pipes, j, live)
    requires f2.m.s.ring == f.m.s.ring && f2.m.s.head == NextHead(f.m.s.head)
    requires Frame(f.m.k.fds, base, f.m.k.pipes, gone) && UTargetOk(f, n, gone)
    ensures var r := f2.(m := LandNumbered(f2.m, n, err, argv)); var slot := Slot(f.m.s.head, n + 1);
            && UIdle(r, live) && Frame(f.m.k.fds, r.m.k.fds, f.m.k.pipes, gone)
            && r.m.s.ring == f.m.s.ring[slot := r.m.s.curr] && r.m.s.head == f2.m.s.head
            && f2.m.k.kids <= r.m.k.kids && f2.m.k.pipes <= r.m.k.pipes
            && (f.m.s.ring[slot] != NoEnds ==> r.m.s.curr == f.m.s.ring[slot])
            && (f.m.s.ring[slot] == NoEnds ==>
                  && r.m.k.pipes == f2.m.k.pipes + 1 && Owns(r.m.k.fds, r.m.s.curr, r.m.k.pipes - 1)
                  && Unboxed(r.pipes, r.notes, r.m.k.pipes - 1))
  {
    hide Frame, PipesOk, Alternate, Unboxed, LandNumbered, LandTable, Idle, Slot, NextHead, Holds, Loop, Barrier, Owns, UTargetOk;
    var e := f.m.k.pipes;
    var slot := Slot(f.m.s.head, n + 1);
    var q := f.m.s.ring[slot];
    SlotShift(f.m.s.head, n);
    EolInBase(f2.m, base, e, |f1.m.k.kids|);
    TargetQ(f, n, gone);
    TargetHeld(f, base, gone, f2.m, e, |f1.m.k.kids|, q);
    LandMachine(f1.m, f2.m, base, e, j, n, err, argv);
    var r := f2.(m := LandNumbered(f2.m, n, err, argv));
    LandPipes(f2, base, f2.m.s.eol, e, q, r.m.s.curr, f2.m.k.pipes, r.m.k.fds, live, r.m.k.pipes);
    BaseBelow(f2.m, base);
    EolLess(f2.m, base, e, |f1.m.k.kids|);
    FrameEnd(f.m.k.fds, base, r.m.k.fds, f.m.k.pipes, f2.m.k.pipes, gone, e);
  }

  lemma EolLess(m: Machine, base: Table, e: nat, first: nat)
    requires Barrier(m, base, e, first)
    ensures e < m.k.pipes
  {
  }

  lemma TargetQ(f: Flight, n: int, gone: set<nat>)
    requires |f.m.s.ring| == SIZE && UTargetOk(f, n, gone)
    ensures var q := f.m.s.ring[Slot(f.m.s.head, n + 1)];
            q == NoEnds || exists id: nat :: Owns(f.m.k.fds, q, id) && id < f.m.k.pipes && id !in gone
  {
  }

  lemma UNumberedPiece(f: Flight, live: set<nat>, user: nat, p: Piece, base: Table)
    requires |f.m.s.ring| == SIZE && UShape(p) && EndsNumbered(p.cmds)
    requires UTargetOk(f, p.cmds[|p.cmds| - 1].n, Taken(f, live, user, p.readUid))
    requires var f1 := UBegin(f, live, user, p.readUid);
             |f1.m.s.ring| == SIZE && UGoing(f1.m, f1, base, f.m.k.pipes, 0, live) && Begun(f.m, f1.m)
             && Frame(f.m.k.fds, base, f.m.k.pipes, Taken(f, live, user, p.readUid))
    ensures UEffect(f, URun(f, live, user, p), p, live, user) && URing(f, URun(f, live, user, p), p)
  {
    hide UGoing, Frame, Taken, UBegin, UStages, UShape, UIdle, Unboxed, Slot, NextHead, Owns, UTargetOk, URun, LandNumbered;
    var gone := Taken(f, live, user, p.readUid);
    var f1 := UBegin(f, live, user, p.readUid);
    var f2, base' := UReach(f, live, user, p, f1, base, gone);
    var c := p.cmds[|p.cmds| - 1];
    ULand(f, f1, f2, base', live, StageCount(p.cmds) - 1, c.n, c.err, gone, ArgvOf(p.cmds, StageCount(p.cmds) - 1));
  }

  /** Every piece of every user: descriptors of pipes it does not take over are left alone, user
      pipes stay owned and in turn, and its ring changes as its own command line says. */
  lemma UPieceOk(f: Flight, live: set<nat>, user: nat, p: Piece)
    requires |f.m.s.ring| == SIZE && UIdle(f, live) && FrontOk(f.m) && UShape(p)
    requires p.readUid <= 0 ==> forall r: nat, s: nat :: (r, s) in f.pipes ==>
               Mailbox(f.notes, s, r).id !in Taken(f, live, user, p.readUid)
    requires EndsNumbered(p.cmds) ==> UTargetOk(f, p.cmds[|p.cmds| - 1].n, Taken(f, live, user, p.readUid))
    ensures UEffect(f, URun(f, live, user, p), p, live, user) && URing(f, URun(f, live, user, p), p)
  {
    hide UGoing, Frame, Taken, UBegin, UShape, UIdle, Mailbox, FrontOk, UTargetOk, URun, UEffect, URing;
    var base: Table;
    if p.readUid <= 0 {
      base := UBeginPlain(f, live, user, p.readUid);
    } else {
      base := UBeginRead(f, live, user, p.readUid);
    }
    if EndsNumbered(p.cmds) {
      UNumberedPiece(f, live, user, p, base);
    } else {
      UPlainPiece(f, live, user, p, base);
    }
  }
}
