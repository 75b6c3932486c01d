/**
 What a user's piece means in every run of the single-process server, written out command by
 command: which programs run, where each reads and writes, and what becomes of the user pipes.
 */
module ServerMeaning {
  import opened Kernel
  import opened Pipes
  import opened Shell
  import opened Ownership
  import opened Pieces
  import opened PieceRuns
  import opened Runs
  import opened Accounts
  import opened Wiring
  import opened UserShell
  import opened UserPipes
  import opened UserStages
  import opened UserPieces
  import opened UserWiring
  import opened UserMeaning
  import opened World
  import opened WorldRuns
  import opened Independence
  import opened ServerWiring
  import opened Programs
  import opened Meaning

  /** A piece typed in an ordered, wired server. */
  lemma TypedMeant(w: World, dues: Dues, user: nat, p: Piece)
    requires WorldOk(w, dues) && user in w.users && user in dues && Proper(w.users[user].past + [p]) && Spared(w.users[user], p) && Wired(w)
    ensures |w.users[user].shell.ring| == SIZE
    ensures var f := FlightOf(w, user); var f1 := UBegin(f, w.users.Keys, user, p.readUid); var r := URun(f, w.users.Keys, user, p);
            && AllPlaced(f1, r, w.users.Keys, user, p) && Begins(f, f1, w.users.Keys, user, p.readUid)
            && (EndsNumbered(p.cmds) ==> |r.m.k.kids| > 0 && Slotted(r, Out(r.m.k.kids[|r.m.k.kids| - 1])))
    ensures var w' := Step(w, Typed(user, p)); var r := URun(FlightOf(w, user), w.users.Keys, user, p);
            w'.k == r.m.k && w'.pipes == r.pipes && w'.notes == r.notes && UShape(p)
  {
    hide WorldOk, Taken, URun, UBegin, Clean, Mailbox, UTargetOk, UShape, Tidy, BoxFed, AllPlaced, Slotted, Begins, Proper, Targets,
      UIdle, RingBut, NextProper, Bare;
    TypedIdle(w, dues, user);
    NextIsProper(w.users[user].past, p, dues[user], w.users[user].cut);
    NextShape(|w.users[user].past|, dues[user], w.users[user].cut, p);
    ProperParts(|w.users[user].past|, dues[user], w.users[user].cut, p);
    var f := FlightOf(w, user);
    FrontBut(f.m, |w.users[user].past|, dues[user], w.users[user].cut);
    if p.readUid <= 0 {
      forall r: nat, s: nat | (r, s) in f.pipes
        ensures Mailbox(f.notes, s, r).Full? && Mailbox(f.notes, s, r).id !in Taken(f, w.users.Keys, user, p.readUid)
      {
        BoxesNotTaken(w, dues, user, p.readUid, r, s);
      }
    }
    if EndsNumbered(p.cmds) { TypedTarget(w, dues, user, p); }
    UPieceMeant(f, w.users.Keys, user, p);
  }

  lemma NextShape(line: nat, due: map<nat, Reg>, cut: set<nat>, p: Piece)
    requires NextProper(line, due, cut, p)
    ensures UShape(p)
  {
  }

  /** Child c has, besides the standard descriptors, nothing but what the server itself starts with
      and sockets. */
  ghost predicate OnlySockets(c: Child) {
    {0, 1, 2} <= View(c).Keys && forall fd :: fd in View(c) && fd !in {0, 1, 2} ==> View(c)[fd].obj.Other? || View(c)[fd].obj.Sock?
  }

  /** Stage i of a piece whose first child is number first. */
  ghost predicate StageMeans(kids: seq<Child>, first: nat, cmds: seq<Command>, i: nat) {
    && first + i < |kids| && 2 * i < |cmds|
    && Directed(kids[first + i], cmds, 2 * i) && OnlySockets(kids[first + i])
    && (i > 0 ==> InputRight(kids, first + i, (u: nat) => cmds[2 * i - 1] == PipeTo && u + 1 == first + i))
  }

  lemma PlacedMeans(kids: seq<Child>, first: nat, p: Piece, i: nat)
    requires Placed(kids, first, p, i) && Alternating(p.cmds) && 2 * i < |p.cmds|
    requires Executes(kids[first + i], ArgvOf(p.cmds, i)) && Inherits(kids[first + i])
    ensures StageMeans(kids, first, p.cmds, i)
  {
    hide View;
    var c := kids[first + i];
    assert p.cmds[2 * i].Exe?;
    if 2 * i + 1 < |p.cmds| { assert !p.cmds[2 * i + 1].Exe?; }
    assert Directed(c, p.cmds, 2 * i) by { hide Fed; }
    if i > 0 {
      var ws := (u: nat) => p.cmds[2 * i - 1] == PipeTo && u + 1 == first + i;
      if p.cmds[2 * i - 1] == PipeTo {
        var writers: set<nat> := {first + i - 1};
        InputFed(kids, first + i, ws, writers);
      } else {
        var writers: set<nat> := {};
        InputFed(kids, first + i, ws, writers);
      }
    }
  }

  /** The id a piece reads from is that of a user who has sent something not read yet. */
  predicate Gets(w: World, user: nat, readUid: int) {
    0 < readUid <= 31 && readUid in w.users && (user, readUid as nat) in w.pipes
  }

  /** What the piece's first program reads: the pipe the user named last sent, or nothing at all from
      a user who is not there or has sent nothing; without `<n`, the pipe in the slot for this piece,
      or the terminal. */
  ghost predicate FirstMeans(w: World, kids: seq<Child>, user: nat, readUid: int) {
    && user in w.users && |w.users[user].shell.ring| == 1024 && |w.k.kids| < |kids| && 0 in View(kids[|w.k.kids|])
    && var input := View(kids[|w.k.kids|])[0].obj;
       if 0 < readUid then
         if Gets(w, user, readUid) then
           && Mailbox(w.notes, readUid, user).Full? && input == ReadEnd(Mailbox(w.notes, readUid, user).id)
         else input == File("/dev/null")
       else
         var q := w.users[user].shell.ring[(w.users[user].shell.head + 1) % 1024];
         if q == NoEnds then input == Other(0) else q.rd in w.k.fds && input == w.k.fds[q.rd].obj
  }

  /** The user pipes and their history once the piece has read. */
  function PipesThen(w: World, user: nat, readUid: int): PipeTable {
    if Gets(w, user, readUid) then w.pipes - {(user, readUid as nat)} else w.pipes
  }

  function NotesThen(w: World, user: nat, readUid: int): seq<Note> {
    if Gets(w, user, readUid) && Mailbox(w.notes, readUid, user).Full? then
      w.notes + [Took(readUid, user, Mailbox(w.notes, readUid, user).id)]
    else w.notes
  }

  /** Stage i is the first of the piece that writes to a user. */
  predicate FirstSends(cmds: seq<Command>, i: nat) {
    2 * i + 1 < |cmds| && cmds[2 * i + 1] == UserTo && forall h :: 0 <= h < i ==> cmds[2 * h + 1] != UserTo
  }

  /** What becomes of the user pipes: the piece takes the one it reads, and the first program in front
      of a `>n` writes a new one, kept for user n, if there is such a user and nothing from here is
      waiting for him; output to users is thrown away otherwise. */
  ghost predicate BoxesMean(w: World, w': World, user: nat, p: Piece) {
    var first := |w.k.kids|;
    var pipes, notes := PipesThen(w, user, p.readUid), NotesThen(w, user, p.readUid);
    && |w'.k.kids| == first + (|p.cmds| + 1) / 2
    && (UserTo !in p.cmds ==> w'.pipes == pipes && w'.notes == notes)
    && forall i :: 0 <= i && FirstSends(p.cmds, i) ==>
         && 1 in View(w'.k.kids[first + i])
         && (forall h :: i < h && 2 * h + 1 < |p.cmds| && p.cmds[2 * h + 1] == UserTo ==> Thrown(w'.k.kids[first + h]))
         && if 0 < p.writeUid <= 31 && p.writeUid in w.users && (p.writeUid as nat, user) !in pipes then
              var o := View(w'.k.kids[first + i])[1].obj;
              && o.WriteEnd? && w'.notes == notes + [Wrote(user, p.writeUid, o.id)]
              && (p.writeUid as nat, user) in w'.pipes && w'.pipes - {(p.writeUid as nat, user)} == pipes
            else w'.pipes == pipes && w'.notes == notes && Thrown(w'.k.kids[first + i])
  }

  /** The output of c goes nowhere. */
  ghost predicate Thrown(c: Child) {
    1 in View(c) && View(c)[1].obj == File("/dev/null")
  }

  lemma BeginsMeans(w: World, f1: Flight, kids: seq<Child>, user: nat, readUid: int)
    requires user in w.users && |w.users[user].shell.ring| == SIZE && Begins(FlightOf(w, user), f1, w.users.Keys, user, readUid)
    requires FirstIn(f1.m, kids) && FrontOk(FlightOf(w, user).m) && 0 in View(kids[|w.k.kids|])
    ensures FirstMeans(w, kids, user, readUid)
    ensures f1.pipes == PipesThen(w, user, readUid) && f1.notes == NotesThen(w, user, readUid) && f1.m.k.kids == w.k.kids
  {
    hide View, Mailbox;
  }

  lemma FirstIs(p: Piece, i: nat)
    requires Alternating(p.cmds) && FirstSends(p.cmds, i)
    ensures i < StageCount(p.cmds) && i == FirstUserTo(p, StageCount(p.cmds))
  {
    var i0 := FirstUserTo(p, StageCount(p.cmds));
    assert LinkOf(p.cmds, i) == Via(UserTo);
    assert i0 < StageCount(p.cmds) ==> LinkOf(p.cmds, i0) == Via(UserTo);
  }

  lemma NoneIs(p: Piece)
    requires Alternating(p.cmds) && UserTo !in p.cmds
    ensures FirstUserTo(p, StageCount(p.cmds)) == StageCount(p.cmds)
  {
    var i0 := FirstUserTo(p, StageCount(p.cmds));
    assert i0 < StageCount(p.cmds) ==> LinkOf(p.cmds, i0) == Via(UserTo);
  }

  /** The children from first on have a standard output. */
  ghost predicate Viewed(kids: seq<Child>, first: nat) {
    forall u :: first <= u < |kids| ==> 1 in View(kids[u])
  }

  lemma ToldMeans(w: World, w': World, f1: Flight, user: nat, p: Piece)
    requires user in w.users && Alternating(p.cmds) && f1.m.k.kids == w.k.kids
    requires f1.pipes == PipesThen(w, user, p.readUid) && f1.notes == NotesThen(w, user, p.readUid)
    requires Told(f1, Flight(Machine(w'.k, w.users[user].shell), w'.pipes, w'.notes), w.users.Keys, user, p, StageCount(p.cmds))
    requires Viewed(w'.k.kids, |w.k.kids|)
    ensures BoxesMean(w, w', user, p)
  {
    hide View, PipesThen, NotesThen, LinkOf, Alternating, FirstSends, FirstUserTo;
    var first := |w.k.kids|;
    var n := StageCount(p.cmds);
    if UserTo !in p.cmds { NoneIs(p); }
    forall i | 0 <= i && FirstSends(p.cmds, i)
      ensures i == FirstUserTo(p, n) && i < n
    {
      FirstIs(p, i);
    }
    forall h | 0 <= h && 2 * h + 1 < |p.cmds| && p.cmds[2 * h + 1] == UserTo
      ensures LinkOf(p.cmds, h) == Via(UserTo) && h < n
    {
      LinkIs(p.cmds, h);
    }
  }

  lemma LinkIs(cmds: seq<Command>, h: nat)
    requires 2 * h + 1 < |cmds|
    ensures LinkOf(cmds, h) == Via(cmds[2 * h + 1])
  {
  }

  /** Everything a piece means, from state w to state w'. */
  ghost predicate PieceMeans(w: World, w': World, user: nat, p: Piece) {
    && (forall i :: 0 <= i && 2 * i < |p.cmds| ==> StageMeans(w'.k.kids, |w.k.kids|, p.cmds, i))
    && FirstMeans(w, w'.k.kids, user, p.readUid)
    && BoxesMean(w, w', user, p)
    && (EndsNumbered(p.cmds) ==> SlotMeans(w', user, p))
  }

  /** The last program of a piece ending in `|n` or `!n` writes the pipe that the slot n pieces ahead
      names. */
  ghost predicate SlotMeans(w': World, user: nat, p: Piece) {
    && user in w'.users && |w'.users[user].shell.ring| == 1024 && w'.k.kids != [] && EndsNumbered(p.cmds)
    && var q := w'.users[user].shell.ring[(w'.users[user].shell.head + p.cmds[|p.cmds| - 1].n) % 1024];
       var c := w'.k.kids[|w'.k.kids| - 1];
       1 in View(c) && View(c)[1].obj.WriteEnd? && q.wr in w'.k.fds && w'.k.fds[q.wr].obj == View(c)[1].obj
  }

  lemma StagesMean(w: World, w': World, f1: Flight, user: nat, p: Piece)
    requires user in w.users && Alternating(p.cmds) && f1.m.k.kids == w.k.kids
    requires AllPlaced(f1, Flight(Machine(w'.k, w.users[user].shell), w'.pipes, w'.notes), w.users.Keys, user, p)
    requires Launched(w'.k.kids, |w.k.kids|, p.cmds, StageCount(p.cmds)) && Bare(w'.k.kids, |w.k.kids|)
    ensures forall i :: 0 <= i && 2 * i < |p.cmds| ==> StageMeans(w'.k.kids, |w.k.kids|, p.cmds, i)
    ensures Viewed(w'.k.kids, |w.k.kids|) && |w.k.kids| < |w'.k.kids| && 0 in View(w'.k.kids[|w.k.kids|])
  {
    hide Placed, FirstIn, Told, StageMeans, Alternating, Executes, ArgvOf, View;
    forall i | 0 <= i && 2 * i < |p.cmds|
      ensures StageMeans(w'.k.kids, |w.k.kids|, p.cmds, i)
    {
      PlacedMeans(w'.k.kids, |w.k.kids|, p, i);
    }
    SomeStage(p.cmds);
  }

  lemma SomeStage(cmds: seq<Command>)
    requires Alternating(cmds)
    ensures 0 < StageCount(cmds)
  {
  }

  /** A piece typed in an ordered, wired server means what it says. */
  lemma StepMeans(w: World, dues: Dues, user: nat, p: Piece)
    requires WorldOk(w, dues) && user in w.users && user in dues && Proper(w.users[user].past + [p]) && Spared(w.users[user], p) && Wired(w)
    ensures PieceMeans(w, Step(w, Typed(user, p)), user, p)
  {
    hide WorldOk, Proper, URun, UBegin, AllPlaced, Begins, Slotted, Spared, StageMeans, FirstMeans, BoxesMean, Mailbox, SlotMeans,
      View, Wired, UShape, Bare, Launched;
    var w' := Step(w, Typed(user, p));
    TypedMeant(w, dues, user, p);
    var f := FlightOf(w, user);
    var f1 := UBegin(f, w.users.Keys, user, p.readUid);
    var r := URun(f, w.users.Keys, user, p);
    WiredTyped(w, dues, user, p);
    assert Bare(w'.k.kids, 0) by { WiredBare(w'); }
    BareFrom(w'.k.kids, |w.k.kids|);
    UPieceArgv(f, w.users.Keys, user, p);
    assert f1.m.k.kids == w.k.kids by { BeginsKids(f, f1, w.users.Keys, user, p.readUid); }
    assert Alternating(p.cmds) by { ShapeAlternates(p); }
    SameFlight(f1, r, w.users[user].shell, w.users.Keys, user, p);
    StagesMean(w, w', f1, user, p);
    FrontFine(w, dues, user, p);
    assert FirstIn(f1.m, w'.k.kids) && Told(f1, Flight(Machine(w'.k, w.users[user].shell), w'.pipes, w'.notes), w.users.Keys, user, p, StageCount(p.cmds)) by {
      PlacedParts(f1, Flight(Machine(w'.k, w.users[user].shell), w'.pipes, w'.notes), w.users.Keys, user, p);
    }
    BeginsMeans(w, f1, w'.k.kids, user, p.readUid);
    ToldMeans(w, w', f1, user, p);
    if EndsNumbered(p.cmds) { SlottedMeans(w, dues, user, p); }
  }

  lemma WiredBare(w: World)
    requires Wired(w)
    ensures Bare(w.k.kids, 0)
  {
    hide Bare, BoxFed, Tidy;
  }

  lemma BareFrom(kids: seq<Child>, n: nat)
    requires Bare(kids, 0)
    ensures Bare(kids, n)
  {
    hide Inherits;
  }

  lemma BeginsKids(f: Flight, f1: Flight, live: set<nat>, user: nat, readUid: int)
    requires |f.m.s.ring| == SIZE && Begins(f, f1, live, user, readUid)
    ensures f1.m.k.kids == f.m.k.kids
  {
    hide Mailbox;
  }

  lemma ShapeAlternates(p: Piece)
    requires UShape(p)
    ensures Alternating(p.cmds)
  {
    hide Alternating;
  }

  /** The shell's own variables do not matter to what its children are. */
  lemma SameFlight(f1: Flight, r: Flight, s: Shell, live: set<nat>, user: nat, p: Piece)
    requires AllPlaced(f1, r, live, user, p)
    ensures AllPlaced(f1, Flight(Machine(r.m.k, s), r.pipes, r.notes), live, user, p)
  {
    hide Placed, FirstIn, FirstUserTo;
  }

  lemma PlacedParts(f1: Flight, r: Flight, live: set<nat>, user: nat, p: Piece)
    requires AllPlaced(f1, r, live, user, p)
    ensures FirstIn(f1.m, r.m.k.kids) && Told(f1, r, live, user, p, StageCount(p.cmds))
  {
    hide Placed, FirstIn, Told;
  }

  lemma FrontFine(w: World, dues: Dues, user: nat, p: Piece)
    requires WorldOk(w, dues) && user in w.users && user in dues && Proper(w.users[user].past + [p]) && Spared(w.users[user], p)
    ensures |w.users[user].shell.ring| == SIZE && FrontOk(FlightOf(w, user).m)
  {
    hide WorldOk, Proper, Targets, UIdle, RingBut, NextProper, Clean, UShape, FrontOk;
    TypedIdle(w, dues, user);
    NextIsProper(w.users[user].past, p, dues[user], w.users[user].cut);
    ProperParts(|w.users[user].past|, dues[user], w.users[user].cut, p);
    FrontBut(FlightOf(w, user).m, |w.users[user].past|, dues[user], w.users[user].cut);
  }

  lemma SlottedMeans(w: World, dues: Dues, user: nat, p: Piece)
    requires WorldOk(w, dues) && user in w.users && user in dues && Proper(w.users[user].past + [p]) && Spared(w.users[user], p) && Wired(w)
    requires EndsNumbered(p.cmds)
    ensures SlotMeans(Step(w, Typed(user, p)), user, p)
  {
    hide WorldOk, Proper, URun, UBegin, AllPlaced, Begins, Mailbox, View, Wired, UShape, UEffect, NextProper, Targets, RingBut, UIdle, Slot;
    TypedMeant(w, dues, user, p);
    TypedIdle(w, dues, user);
    NextIsProper(w.users[user].past, p, dues[user], w.users[user].cut);
    TypedEffect(w, dues, user, p);
    var f := FlightOf(w, user);
    var r := URun(f, w.users.Keys, user, p);
    EffectHead(f, r, p, w.users.Keys, user);
    RingSlot(f, r, p);
    OutIn(r.m.k.kids[|r.m.k.kids| - 1]);
  }

  lemma EffectHead(f: Flight, r: Flight, p: Piece, live: set<nat>, user: nat)
    requires |f.m.s.ring| == SIZE && UEffect(f, r, p, live, user)
    ensures r.m.s.head == NextHead(f.m.s.head)
  {
    hide UIdle, Frame, Taken;
  }

  lemma OutIn(c: Child)
    requires Out(c).WriteEnd?
    ensures 1 in View(c) && View(c)[1].obj == Out(c)
  {
  }

  lemma RingSlot(f: Flight, r: Flight, p: Piece)
    requires |f.m.s.ring| == SIZE && EndsNumbered(p.cmds) && URing(f, r, p) && r.m.s.head == NextHead(f.m.s.head)
    ensures |r.m.s.ring| == 1024 && r.m.s.ring[(r.m.s.head + p.cmds[|p.cmds| - 1].n) % 1024] == r.m.s.curr
  {
    hide Owns, Unboxed;
    SlotShift(f.m.s.head, p.cmds[|p.cmds| - 1].n);
  }

  /** In every run with clear exits: whatever anybody types does what it says. */
  lemma ServerMeans(es: seq<Act>, user: nat, p: Piece)
    requires AllProper(es + [Typed(user, p)]) && user in After(es).users
    ensures PieceMeans(After(es), After(es + [Typed(user, p)]), user, p)
  {
    hide After, AllProper, Wired, WorldOk, Proper, PieceMeans, Spared, Step;
    var es' := es + [Typed(user, p)];
    LastAct(es');
    assert es'[..|es'| - 1] == es;
    LastAdded(es, Typed(user, p));
    AfterWired(es);
    var dues := AfterOk(es);
    Watched(After(es), dues);
    StepMeans(After(es), dues, user, p);
  }
}
