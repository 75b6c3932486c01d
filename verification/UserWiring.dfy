/** Who writes and who reads the pipes between users. */
module UserWiring {
  import opened Kernel
  import opened Pipes
  import opened Shell
  import opened Ownership
  import opened Stages
  import opened Pieces
  import opened PieceRuns
  import opened Wiring
  import opened UserShell
  import opened UserPipes
  import opened UserStages
  import opened UserPieces
  import opened UserBoxes

  /** The child starts with the three standard descriptors and nothing else but sockets and the
      like, which it inherits: no pipe and no file. */
  ghost predicate Inherits(c: Child) {
    && {0, 1, 2} <= View(c).Keys
    && forall fd :: fd in View(c) && fd !in {0, 1, 2} ==> Lasts(View(c)[fd]) && fd in c.table && View(c)[fd] == c.table[fd]
  }

  /** One more child: it starts with no pipe and no file but as a standard descriptor, writes o,
      reads what m's current pipe offers, alone, and disturbs nobody's reading. */
  ghost predicate OneMore(m: Machine, r: Machine, o: Obj) {
    && |r.k.kids| == |m.k.kids| + 1 && m.k.kids <= r.k.kids
    && Inherits(r.k.kids[|m.k.kids|]) && Out(r.k.kids[|m.k.kids|]) == o
    && Keeps(m.k.kids, r.k.kids)
    && forall c: nat :: Offers(m.k.fds, m.s.curr, m.k.kids, {c}) ==> Fed(r.k.kids, |m.k.kids|, {c})
  }

  /** The descriptors outside the two pipe variables. */
  function Rest(m: Machine): Table {
    m.k.fds - Keys(m.s.prev) - Keys(m.s.curr)
  }

  /** Beside the standard descriptors only sockets and the like survive exec. */
  ghost predicate Tidy(t: Table) {
    StdIs(t) && forall fd :: fd in t && 3 <= fd && !Lasts(t[fd]) ==> t[fd].cloexec
  }

  lemma TidyExec(t: Table, prev: Ends, curr: Ends, err: bool)
    requires StdOpen(t) && Tidy(t - Keys(prev) - Keys(curr))
    ensures var r := ExecTable(t, prev, curr, err);
            && {0, 1, 2} <= r.Keys
            && forall fd :: fd in r && fd !in {0, 1, 2} ==> Lasts(r[fd]) && fd in t && r[fd] == t[fd]
  {
    var r := ExecTable(t, prev, curr, err);
    forall fd | fd in r && fd !in {0, 1, 2}
      ensures Lasts(r[fd])
    {
      assert fd in t - Keys(prev) - Keys(curr);
    }
  }

  /** The fork itself, in a state m2 that still offers what m's current pipe offered. */
  lemma SpawnOne(m: Machine, m2: Machine, err: bool, argv: seq<string>)
    requires Ready(m2) && StdIs(m2.k.fds) && Tidy(Rest(m2)) && m2.s.prev == m.s.curr && m2.k.kids == m.k.kids
    requires m.s.curr.rd in m.k.fds ==> m.s.curr.rd in m2.k.fds && m2.k.fds[m.s.curr.rd].obj == m.k.fds[m.s.curr.rd].obj
    ensures OneMore(m, Spawn(m2, err, argv), OutputOf(m2.k.fds, m2.s.prev, m2.s.curr, 1))
    ensures Spawn(m2, err, argv).k.fds == m2.k.fds
  {
    var t := m2.k.fds;
    SpawnOk(m2, err, argv);
    SpawnView(t, m2.k.pipes, m2.s.prev, m2.s.curr, err, argv);
    TidyExec(t, m2.s.prev, m2.s.curr, err);
    hide View, ChildProgram, Ready, ExecTable, Fed, Tidy;
    SpawnKeeps(m2, err, argv);
    forall w: nat | Offers(m.k.fds, m.s.curr, m.k.kids, {w})
      ensures Fed(Spawn(m2, err, argv).k.kids, |m.k.kids|, {w})
    {
      SpawnFed(m2, err, {w}, argv);
    }
  }

  lemma StdRest(m: Machine, base: Table)
    requires Loop(m, base) && StdIs(base)
    ensures StdIs(m.k.fds) && base == Rest(m)
  {
    hide Sound, Gone;
  }

  /** A stage with a pipe or a file behind it. */
  lemma OrdinaryOne(m: Machine, base: Table, link: Link, argv: seq<string>)
    requires Loop(m, base) && Ordinary(link) && Tidy(base)
    ensures OneMore(m, Stage(m, link, argv), if link.c.PipeTo? then WriteEnd(m.k.pipes) else File(link.c.name))
    ensures Rest(Stage(m, link, argv)) == base
  {
    StdRest(m, base);
    ShiftOk(m, base);
    StageOk(m, base, link, argv);
    var m1 := Shift(m);
    var m2 := Connect(m1, link);
    if link.c.PipeTo? { NewPipeOk(m1); } else { NewFileOk(m1, link.c.name); }
    hide Sound, Gone, Sole, OneMore, Spawn, LogOk;
    assert Rest(m2) == base;
    SpawnOne(m, m2, PipeError(link), argv);
  }

  /** The stage in front of a `>n` that succeeds: its child writes the new user pipe. */
  lemma WriteOne(m: Machine, base: Table, e: nat, first: nat, argv: seq<string>)
    requires Loop(m, base) && Barrier(m, base, e, first) && Tidy(base)
    ensures OneMore(m, WriteStage(m, argv), WriteEnd(m.k.pipes)) && Tidy(Rest(WriteStage(m, argv)))
  {
    StdRest(m, base);
    ShiftOk(m, base);
    WriteStageOk(m, base, e, first, argv);
    var m1 := Shift(m);
    WriteReady(m1, base);
    UserPipeTable(m1.k);
    var m2 := WriteMachine(m1);
    hide Sound, Gone, Sole, OneMore, Spawn, LogOk, Barrier, Apply, LowestFree, View;
    assert Rest(m2) == AddPipe(base, NewEnds(m1.k.fds, m1.k.pipes), m.k.pipes);
    SpawnOne(m, m2, false, argv);
  }

  /** The last stage with nothing behind it: the shared pipe variables leave it the terminal. */
  lemma OpenOne(m: Machine, base: Table, argv: seq<string>)
    requires Loop(m, base) && Tidy(base)
    ensures OneMore(m, Stage(m, NoLink, argv), Other(1))
  {
    StdRest(m, base);
    ShiftOk(m, base);
    var m1 := Shift(m);
    assert Rest(m1) == base - Keys(m1.s.curr);
    assert OutputOf(m1.k.fds, m1.s.prev, m1.s.curr, 1) == Other(1) by { OutAlias(m1.k, m1.s.prev); }
    hide Sound, Gone, Sole, OneMore, Spawn, LogOk;
    SpawnOne(m, m1, false, argv);
  }

  lemma OutAlias(k: Proc, p: Ends)
    requires TableOk(k.fds, k.pipes) && StdIs(k.fds)
    ensures OutputOf(k.fds, p, p, 1) == Other(1)
  {
  }

  /** The number of the pipe a numbered connector writes to. */
  ghost function NumberedPipe(m: Machine, n: int): Obj
    requires |m.s.ring| == SIZE
  {
    var q := m.s.ring[Slot(m.s.head, n)];
    if q == NoEnds then WriteEnd(m.k.pipes) else At(m.k.fds, q.wr)
  }

  lemma RestTargeted(m1: Machine, m2: Machine, base: Table, slot: nat)
    requires |m1.s.ring| == SIZE && slot < SIZE && Targeted(m1, m2, base, slot)
    ensures var p := m1.s.ring[slot]; Rest(m2) == if p == NoEnds then base else base - Keys(p)
  {
    assert Rest(m2) == (m2.k.fds - Keys(m2.s.prev)) - Keys(m2.s.curr);
  }

  /** The last stage with a numbered pipe behind it. */
  lemma NumberedOne(m0: Machine, m: Machine, base: Table, e: nat, j: nat, n: int, err: bool, argv: seq<string>)
    requires |m.s.ring| == SIZE && Going(m0, m, base, e, j) && Tidy(base)
    requires var p := m.s.ring[Slot(m.s.head, n)];
             p == NoEnds || (Holds(base, p) && Keys(p) !! Keys(m.s.eol) && p.wr != -1)
    ensures OneMore(m, Spawn(Connect(Shift(m), Via(Numbered(n, err))), err, argv), NumberedPipe(m, n))
  {
    StdRest(m, base);
    ShiftOk(m, base);
    NumberedConnect(m0, m, base, e, j, n, err);
    var m1 := Shift(m);
    var m2 := Connect(m1, Via(Numbered(n, err)));
    var p := m.s.ring[Slot(m.s.head, n)];
    hide Sound, Gone, Sole, OneMore, Spawn, LogOk, Barrier, Slot;
    if p == NoEnds {
      NewPipeOk(m1);
      assert m2.k == Connect(m1, Via(PipeTo)).k;
    }
    assert StdIs(m2.k.fds);
    RestTargeted(m1, m2, base, Slot(m.s.head, n));
    assert Tidy(Rest(m2));
    SpawnOne(m, m2, err, argv);
  }

  /** Every unread user pipe is written by exactly one child. */
  ghost predicate BoxFed(pipes: PipeTable, notes: seq<Note>, kids: seq<Child>) {
    forall r: nat, s: nat :: (r, s) in pipes && Mailbox(notes, s, r).Full? ==>
      exists c: nat :: Feeders(kids, Mailbox(notes, s, r).id) == {c}
  }

  /** Children from n on start with no pipe and no file but as standard descriptors. */
  ghost predicate Bare(kids: seq<Child>, n: nat) {
    forall u :: n <= u < |kids| ==> Inherits(kids[u])
  }

  /** What the stages of a piece that began in m0 keep. */
  ghost predicate Weave(m0: Machine, f: Flight) {
    && Tidy(Rest(f.m)) && m0.k.kids <= f.m.k.kids && Keeps(m0.k.kids, f.m.k.kids) && Bare(f.m.k.kids, |m0.k.kids|)
    && BoxFed(f.pipes, f.notes, f.m.k.kids)
  }

  lemma KidsMore(m0: Machine, m: Machine, r: Machine, o: Obj)
    requires m0.k.kids <= m.k.kids && Keeps(m0.k.kids, m.k.kids) && Bare(m.k.kids, |m0.k.kids|) && OneMore(m, r, o)
    ensures m0.k.kids <= r.k.kids && Keeps(m0.k.kids, r.k.kids) && Bare(r.k.kids, |m0.k.kids|)
  {
    hide Fed, View, Offers;
    assert forall u :: 0 <= u < |m.k.kids| ==> r.k.kids[u] == m.k.kids[u];
  }

  lemma FeedersMore(m: Machine, r: Machine, o: Obj, id: nat)
    requires OneMore(m, r, o)
    ensures Feeders(r.k.kids, id) == Feeders(m.k.kids, id) + if o == WriteEnd(id) then {|m.k.kids|} else {}
  {
    hide Fed, View, Offers, Keeps, Feeders;
    var c := r.k.kids[|m.k.kids|];
    assert r.k.kids == m.k.kids + [c];
    FeedersGrow(m.k.kids, c, id);
  }

  /** A child that writes nobody's user pipe. */
  lemma BoxesMore(pipes: PipeTable, notes: seq<Note>, m: Machine, r: Machine, o: Obj)
    requires BoxFed(pipes, notes, m.k.kids) && OneMore(m, r, o) && (o.WriteEnd? ==> Unboxed(pipes, notes, o.id))
    ensures BoxFed(pipes, notes, r.k.kids)
  {
    hide OneMore, Feeders, Mailbox;
    forall t: nat, s: nat | (t, s) in pipes && Mailbox(notes, s, t).Full?
      ensures exists c: nat :: Feeders(r.k.kids, Mailbox(notes, s, t).id) == {c}
    {
      var c: nat :| Feeders(m.k.kids, Mailbox(notes, s, t).id) == {c};
      FeedersMore(m, r, o, Mailbox(notes, s, t).id);
      assert Feeders(r.k.kids, Mailbox(notes, s, t).id) == {c};
    }
  }

  /** The child that writes a new user pipe. */
  lemma BoxWritten(f: Flight, r: Machine, user: nat, uid: nat, p: Ends)
    requires BoxFed(f.pipes, f.notes, f.m.k.kids) && OneMore(f.m, r, WriteEnd(f.m.k.pipes))
    requires KidsOk(f.m.k.kids, f.m.k.pipes) && Unboxed(f.pipes, f.notes, f.m.k.pipes)
    ensures BoxFed(f.pipes[(uid, user) := p], f.notes + [Wrote(user, uid, f.m.k.pipes)], r.k.kids)
  {
    hide OneMore, Feeders, Mailbox, KidsOk;
    var notes := f.notes + [Wrote(user, uid, f.m.k.pipes)];
    FreshFeeders(f.m.k.kids, f.m.k.pipes);
    forall t: nat, s: nat | (t, s) in f.pipes[(uid, user) := p] && Mailbox(notes, s, t).Full?
      ensures exists c: nat :: Feeders(r.k.kids, Mailbox(notes, s, t).id) == {c}
    {
      MailboxMore(f.notes, Wrote(user, uid, f.m.k.pipes), s, t);
      FeedersMore(f.m, r, WriteEnd(f.m.k.pipes), Mailbox(notes, s, t).id);
      if (t, s) == (uid, user) {
        assert Feeders(r.k.kids, f.m.k.pipes) == {|f.m.k.kids|};
      } else {
        var c: nat :| Feeders(f.m.k.kids, Mailbox(f.notes, s, t).id) == {c};
        assert Feeders(r.k.kids, Mailbox(notes, s, t).id) == {c};
      }
    }
  }

  /** What a piece's first child reads: what the piece's first pipe offers. */
  ghost predicate FirstFed(m: Machine, r: Machine) {
    forall c: nat :: Offers(m.k.fds, m.s.curr, m.k.kids, {c}) ==> Fed(r.k.kids, |m.k.kids|, {c})
  }

  /** The same for any stage, whose fork changes nobody's reading. */
  ghost predicate StageFed(m: Machine, r: Machine) {
    FirstFed(m, r) && Keeps(m.k.kids, r.k.kids)
  }

  lemma OneIsFed(m: Machine, r: Machine, o: Obj)
    requires OneMore(m, r, o)
    ensures StageFed(m, r)
  {
    hide View, Offers, Fed;
  }

  lemma GoingFacts(m0: Machine, f: Flight, base: Table, e: nat, j: nat, live: set<nat>)
    requires UGoing(m0, f, base, e, j, live)
    ensures Loop(f.m, base) && Barrier(f.m, base, e, |m0.k.kids|) && base == Rest(f.m)
    ensures KidsOk(f.m.k.kids, f.m.k.pipes) && Unboxed(f.pipes, f.notes, f.m.k.pipes)
  {
    hide Alternate, Mailbox, Gone, KidsOk, LogOk, TableOk;
    OldUnboxed(f.pipes, f.notes, base, f.m.k.pipes, live, f.m.k.pipes);
  }

  lemma WeaveOrdinary(m0: Machine, f: Flight, base: Table, e: nat, j: nat, live: set<nat>, link: Link, argv: seq<string>)
    requires UGoing(m0, f, base, e, j, live) && Ordinary(link) && Weave(m0, f)
    ensures Weave(m0, f.(m := Stage(f.m, link, argv))) && StageFed(f.m, Stage(f.m, link, argv))
  {
    GoingFacts(m0, f, base, e, j, live);
    hide UGoing, Loop, Barrier, Stage, Tidy, Keeps, Bare, BoxFed, Unboxed, KidsOk, View, OneMore, StageFed;
    var o := if link.c.PipeTo? then WriteEnd(f.m.k.pipes) else File(link.c.name);
    OrdinaryOne(f.m, base, link, argv);
    KidsMore(m0, f.m, Stage(f.m, link, argv), o);
    OneIsFed(f.m, Stage(f.m, link, argv), o);
    BoxesMore(f.pipes, f.notes, f.m, Stage(f.m, link, argv), o);
  }

  lemma WeaveWritten(m0: Machine, f: Flight, base: Table, e: nat, j: nat, live: set<nat>, user: nat, uid: nat, p: Ends, argv: seq<string>)
    requires UGoing(m0, f, base, e, j, live) && Weave(m0, f)
    ensures Weave(m0, Flight(WriteStage(f.m, argv), f.pipes[(uid, user) := p], f.notes + [Wrote(user, uid, f.m.k.pipes)]))
    ensures StageFed(f.m, WriteStage(f.m, argv))
  {
    GoingFacts(m0, f, base, e, j, live);
    hide UGoing, Loop, Barrier, WriteStage, Tidy, Keeps, Bare, BoxFed, Unboxed, KidsOk, View, OneMore, StageFed;
    WriteOne(f.m, base, e, |m0.k.kids|, argv);
    KidsMore(m0, f.m, WriteStage(f.m, argv), WriteEnd(f.m.k.pipes));
    OneIsFed(f.m, WriteStage(f.m, argv), WriteEnd(f.m.k.pipes));
    BoxWritten(f, WriteStage(f.m, argv), user, uid, p);
  }

  lemma WeaveStage(m0: Machine, f: Flight, base: Table, e: nat, j: nat, live: set<nat>, user: nat, writeUid: int, link: Link, argv: seq<string>)
    requires |f.m.s.ring| == SIZE && UGoing(m0, f, base, e, j, live) && Onwards(link, writeUid) && Weave(m0, f)
    ensures Weave(m0, UStage(f, live, user, writeUid, link, argv)) && StageFed(f.m, UStage(f, live, user, writeUid, link, argv).m)
  {
    hide UGoing, UStage, Stage, WriteStage, NewEnds, Shift, Weave, StageFed;
    UShift(m0, f, base, e, j, live);
    UStageIs(f, live, user, writeUid, link, argv);
    if Ordinary(link) {
      WeaveOrdinary(m0, f, base, e, j, live, link, argv);
    } else if Exists(live, writeUid) && (writeUid as nat, user) !in f.pipes {
      WeaveWritten(m0, f, base, e, j, live, user, writeUid, NewEnds(Shift(f.m).k.fds, f.m.k.pipes), argv);
    } else {
      WeaveOrdinary(m0, f, base, e, j, live, Via(FileTo("/dev/null")), argv);
    }
  }

  lemma {:induction false} WeaveStages(f: Flight, base: Table, e: nat, live: set<nat>, user: nat, p: Piece, j: nat)
    requires |f.m.s.ring| == SIZE && UGoing(f.m, f, base, e, 0, live) && AllOnwards(p, j) && Weave(f.m, f)
    ensures Weave(f.m, UStages(f, live, user, p, j))
    ensures 0 < j ==> FirstFed(f.m, UStages(f, live, user, p, j).m)
  {
    hide UGoing, UStage, Frame, LinkOf, Weave, FirstFed, Onwards;
    if j > 0 {
      WeaveStages(f, base, e, live, user, p, j - 1);
      var b := UStagesOk(f, base, e, live, user, p, j - 1);
      var f1 := UStages(f, live, user, p, j - 1);
      WeaveStage(f.m, f1, b, e, j - 1, live, user, p.writeUid, LinkOf(p.cmds, j - 1), ArgvOf(p.cmds, j - 1));
      if j > 1 {
        FirstStays(f.m, f1.m, UStages(f, live, user, p, j).m);
      }
    }
  }

  /** Later children do not change what the first one reads. */
  lemma FirstStays(m: Machine, m1: Machine, r: Machine)
    requires FirstFed(m, m1) && StageFed(m1, r)
    ensures FirstFed(m, r)
  {
    hide Offers, Fed;
  }

  /** The children and the user pipes after a piece that began in m0. */
  ghost predicate KidsFed(m0: Machine, f: Flight) {
    && m0.k.kids <= f.m.k.kids && Keeps(m0.k.kids, f.m.k.kids) && Bare(f.m.k.kids, |m0.k.kids|)
    && BoxFed(f.pipes, f.notes, f.m.k.kids)
  }

  /** One more child that writes nobody's user pipe. */
  lemma OneKidsFed(m0: Machine, f: Flight, r: Machine, o: Obj)
    requires Weave(m0, f) && OneMore(f.m, r, o) && (o.WriteEnd? ==> Unboxed(f.pipes, f.notes, o.id))
    ensures KidsFed(m0, f.(m := r)) && StageFed(f.m, r)
  {
    hide OneMore, Tidy, Keeps, Bare, BoxFed, Unboxed, StageFed;
    KidsMore(m0, f.m, r, o);
    OneIsFed(f.m, r, o);
    BoxesMore(f.pipes, f.notes, f.m, r, o);
  }

  /** Only the children matter. */
  lemma SameKids(m: Machine, r: Machine, r': Machine, o: Obj)
    requires OneMore(m, r, o) && r'.k.kids == r.k.kids
    ensures OneMore(m, r', o)
  {
    hide View, Offers, Fed, Keeps;
  }

  lemma SameEol(m1: Machine, m2: Machine, base: Table, slot: nat)
    requires |m1.s.ring| == SIZE && slot < SIZE && Targeted(m1, m2, base, slot)
    ensures m2.s.eol == m1.s.eol
  {
  }

  lemma TidyLanded(m1: Machine, m3: Machine, base: Table, slot: nat, r: Machine)
    requires |m1.s.ring| == SIZE && slot < SIZE && Tidy(base) && Targeted(m1, m3, base, slot) && Landed(m3, r)
    requires forall fd :: fd in Keys(m3.s.eol) ==> 3 <= fd
    ensures Tidy(r.k.fds)
  {
    assert r.k.fds == (m3.k.fds - Keys(m3.s.prev)) - Keys(m3.s.eol);
  }

  /** The last stage of a piece ending in a numbered pipe, and what follows it. */
  lemma NumberedLast(m0: Machine, m: Machine, base: Table, e: nat, j: nat, n: int, err: bool, argv: seq<string>)
    requires |m.s.ring| == SIZE && Going(m0, m, base, e, j) && Tidy(base)
    requires var p := m.s.ring[Slot(m.s.head, n)];
             p == NoEnds || (Holds(base, p) && Keys(p) !! Keys(m.s.eol) && p.wr != -1)
    ensures OneMore(m, LandNumbered(m, n, err, argv), NumberedPipe(m, n)) && Tidy(LandNumbered(m, n, err, argv).k.fds)
  {
    NumberedOne(m0, m, base, e, j, n, err, argv);
    NumberedConnect(m0, m, base, e, j, n, err);
    var m3 := Connect(Shift(m), Via(Numbered(n, err)));
    EolInBase(m, base, e, |m0.k.kids|);
    EolAbove(m, base, e, |m0.k.kids|);
    hide Loop, Barrier, OneMore, Slot, Spawn, Finish, Connect, Shift, Sound, Tidy, Targeted, Landed, Idle, Drained, Forkable;
    LandOk(m3, base, e, |m0.k.kids|, err, argv);
    SameEol(Shift(m), m3, base, Slot(m.s.head, n));
    TidyLanded(Shift(m), m3, base, Slot(m.s.head, n), LandNumbered(m, n, err, argv));
    FinishKids(Spawn(m3, err, argv), true);
    SameKids(m, Spawn(m3, err, argv), LandNumbered(m, n, err, argv), NumberedPipe(m, n));
  }

  lemma EolAbove(m: Machine, base: Table, e: nat, first: nat)
    requires Barrier(m, base, e, first)
    ensures forall fd :: fd in Keys(m.s.eol) ==> 3 <= fd
  {
  }

  lemma WeaveTidy(m0: Machine, f: Flight)
    requires Weave(m0, f)
    ensures Tidy(Rest(f.m)) && KidsFed(m0, f)
  {
    hide Tidy, Keeps, Bare, BoxFed;
  }

  /** A piece not ending in a numbered pipe, from its first stage on. */
  lemma PlainFed(f: Flight, base: Table, e: nat, live: set<nat>, user: nat, p: Piece)
    requires |f.m.s.ring| == SIZE && UGoing(f.m, f, base, e, 0, live) && Weave(f.m, f) && UShape(p) && !EndsNumbered(p.cmds)
    ensures var f2 := UStages(f, live, user, p, StageCount(p.cmds)); var r := f2.(m := Finish(f2.m, false));
            KidsFed(f.m, r) && FirstFed(f.m, r.m) && Tidy(r.m.k.fds)
  {
    hide UGoing, UStage, Frame, LinkOf, Weave, FirstFed, StageFed, UShape, EndsNumbered, KidsFed, Tidy, OneMore, UDone, Finish;
    ULinks(p);
    var n := StageCount(p.cmds);
    var f2 := UStages(f, live, user, p, n);
    if |p.cmds| % 2 == 1 {
      WeaveStages(f, base, e, live, user, p, n - 1);
      var b := UStagesOk(f, base, e, live, user, p, n - 1);
      var f1 := UStages(f, live, user, p, n - 1);
      UOpenIs(f1, live, user, p.writeUid, ArgvOf(p.cmds, StageCount(p.cmds) - 1));
      OpenFed(f, f1, b, e, n - 1, live, ArgvOf(p.cmds, StageCount(p.cmds) - 1));
      UOpen(f.m, f1, b, e, n - 1, live, ArgvOf(p.cmds, StageCount(p.cmds) - 1));
      PlainTidy(f.m, f2, b, live, n);
    } else {
      WeaveStages(f, base, e, live, user, p, n);
      var b := UStagesOk(f, base, e, live, user, p, n);
      WeaveTidy(f.m, f2);
      GoingRest(f.m, f2, b, e, n, live);
      UEven(f.m, f2, b, e, n, live);
      PlainTidy(f.m, f2, b, live, n);
    }
    FinishKids(f2.m, false);
    KidsSame(f.m, f2, f2.(m := Finish(f2.m, false)));
  }

  lemma GoingRest(m0: Machine, f: Flight, base: Table, e: nat, j: nat, live: set<nat>)
    requires UGoing(m0, f, base, e, j, live)
    ensures base == Rest(f.m)
  {
    GoingFacts(m0, f, base, e, j, live);
  }

  lemma OpenFed(f: Flight, f1: Flight, base: Table, e: nat, j: nat, live: set<nat>, argv: seq<string>)
    requires |f1.m.s.ring| == SIZE && UGoing(f.m, f1, base, e, j, live) && Weave(f.m, f1)
    requires if j == 0 then f1 == f else FirstFed(f.m, f1.m)
    ensures var r := f1.(m := Stage(f1.m, NoLink, argv)); KidsFed(f.m, r) && FirstFed(f.m, r.m)
    ensures Tidy(base)
  {
    GoingFacts(f.m, f1, base, e, j, live);
    WeaveTidy(f.m, f1);
    hide UGoing, Loop, Barrier, Stage, Tidy, Weave, KidsFed, OneMore, Unboxed, FirstFed;
    OpenOne(f1.m, base, argv);
    OneKidsFed(f.m, f1, Stage(f1.m, NoLink, argv), Other(1));
    if j > 0 { FirstStays(f.m, f1.m, Stage(f1.m, NoLink, argv)); } else { FedFirst(f.m, Stage(f1.m, NoLink, argv)); }
  }

  lemma FedFirst(m: Machine, r: Machine)
    requires StageFed(m, r)
    ensures FirstFed(m, r)
  {
    hide Offers, Fed;
  }

  lemma PlainTidy(m0: Machine, f: Flight, base: Table, live: set<nat>, n: nat)
    requires UDone(m0, f, base, live, n)
    ensures Finish(f.m, false).k.fds == base
  {
    hide PipesOk, Alternate, Sound, Gone;
    FinishPlain(f.m, base);
  }

  lemma KidsSame(m0: Machine, f: Flight, r: Flight)
    requires r.m.k.kids == f.m.k.kids && r.pipes == f.pipes && r.notes == f.notes
    ensures KidsFed(m0, f) ==> KidsFed(m0, r)
    ensures FirstFed(m0, f.m) ==> FirstFed(m0, r.m)
  {
    hide Keeps, Bare, BoxFed, Offers, Fed;
  }

  /** The target of a numbered connector is nobody's user pipe. */
  ghost predicate TargetUnboxed(f: Flight, n: int, q: Ends) {
    q != NoEnds ==> exists id: nat :: Owns(f.m.k.fds, q, id) && id < f.m.k.pipes && Unboxed(f.pipes, f.notes, id)
  }

  /** The last stage of a piece ending in a numbered pipe. */
  lemma NumberedFed(f: Flight, f1: Flight, f2: Flight, base: Table, live: set<nat>, j: nat, n: int, err: bool, gone: set<nat>, argv: seq<string>)
    requires |f.m.s.ring| == SIZE == |f2.m.s.ring| && UGoing(f1.m, f2, base, f.m.k.pipes, j, live) && Weave(f1.m, f2)
    requires f2.m.s.ring == f.m.s.ring && f2.m.s.head == NextHead(f.m.s.head) && BoxKeep(f, f2)
    requires Frame(f.m.k.fds, base, f.m.k.pipes, gone) && UTargetOk(f, n, gone)
    requires TargetUnboxed(f, n, f.m.s.ring[Slot(f.m.s.head, n + 1)])
    requires if j == 0 then f2 == f1 else FirstFed(f1.m, f2.m)
    ensures var r := f2.(m := LandNumbered(f2.m, n, err, argv)); KidsFed(f1.m, r) && FirstFed(f1.m, r.m) && Tidy(r.m.k.fds)
  {
    hide Frame, PipesOk, Alternate, Unboxed, LandNumbered, Slot, NextHead, Holds, Loop, Barrier, Owns, UTargetOk, Weave, KidsFed,
      FirstFed, StageFed, OneMore, Tidy, Going, BoxKeep, TargetUnboxed;
    var e := f.m.k.pipes;
    var q := f.m.s.ring[Slot(f.m.s.head, n + 1)];
    SlotShift(f.m.s.head, n);
    GoingFacts(f1.m, f2, base, e, j, live);
    WeaveTidy(f1.m, f2);
    TargetQ(f, n, gone);
    TargetHeld(f, base, gone, f2.m, e, |f1.m.k.kids|, q);
    TargetEnd(f, f2, base, gone, n, q);
    assert Going(f1.m, f2.m, base, e, j) by { GoingOf(f1.m, f2, base, e, j, live); }
    NumberedLast(f1.m, f2.m, base, e, j, n, err, argv);
    OneKidsFed(f1.m, f2, LandNumbered(f2.m, n, err, argv), NumberedPipe(f2.m, n));
    if j > 0 { FirstStays(f1.m, f2.m, LandNumbered(f2.m, n, err, argv)); } else { FedFirst(f1.m, LandNumbered(f2.m, n, err, argv)); }
  }

  lemma GoingOf(m0: Machine, f: Flight, base: Table, e: nat, j: nat, live: set<nat>)
    requires UGoing(m0, f, base, e, j, live)
    ensures Going(m0, f.m, base, e, j)
  {
    hide Going;
  }

  lemma TargetEnd(f: Flight, f2: Flight, base: Table, gone: set<nat>, n: int, q: Ends)
    requires |f.m.s.ring| == SIZE == |f2.m.s.ring| && base == Rest(f2.m) && BoxKeep(f, f2)
    requires q == f.m.s.ring[Slot(f.m.s.head, n + 1)] == f2.m.s.ring[Slot(f2.m.s.head, n)]
    requires Frame(f.m.k.fds, base, f.m.k.pipes, gone) && UTargetOk(f, n, gone) && TargetUnboxed(f, n, q)
    requires Unboxed(f2.pipes, f2.notes, f2.m.k.pipes)
    ensures q != NoEnds ==> q.wr != -1
    ensures NumberedPipe(f2.m, n).WriteEnd? ==> Unboxed(f2.pipes, f2.notes, NumberedPipe(f2.m, n).id)
  {
    hide Slot, Unboxed;
    if q != NoEnds {
      var id: nat :| Owns(f.m.k.fds, q, id) && id < f.m.k.pipes && Unboxed(f.pipes, f.notes, id);
      var id': nat :| Owns(f.m.k.fds, q, id') && id' < f.m.k.pipes && id' !in gone;
      assert id == id';
      assert Owns(base, q, id);
      assert At(f2.m.k.fds, q.wr) == WriteEnd(id);
    }
  }

  lemma TidyBegin(m: Machine)
    requires Idle(m) && Tidy(m.k.fds)
    ensures Tidy(Begin(m).k.fds) && Begin(m).k.kids == m.k.kids
    ensures FrontOk(m) ==> Tidy(Begin(m).k.fds - Keys(Front(m))) && Rest(Begin(m)) == Begin(m).k.fds - Keys(Front(m))
  {
    PipeEffect(m.k);
  }

  lemma TidyLess(t: Table, p: Ends)
    requires Tidy(t) && Above(p)
    ensures Tidy(t - Keys(p))
  {
  }

  lemma BoxFedLess(f: Flight, user: nat, uid: nat)
    requires BoxFed(f.pipes, f.notes, f.m.k.kids) && (user, uid) in f.pipes
    ensures var id := if Mailbox(f.notes, uid, user).Full? then Mailbox(f.notes, uid, user).id else 0;
            BoxFed(f.pipes - {(user, uid)}, f.notes + [Took(uid, user, id)], f.m.k.kids)
  {
    hide Feeders, Mailbox;
    var id := if Mailbox(f.notes, uid, user).Full? then Mailbox(f.notes, uid, user).id else 0;
    forall r: nat, s: nat | (r, s) in f.pipes - {(user, uid)}
      ensures Mailbox(f.notes + [Took(uid, user, id)], s, r) == Mailbox(f.notes, s, r)
    {
      MailboxMore(f.notes, Took(uid, user, id), s, r);
    }
  }

  /** What the first pipe of a piece offers after a successful read: the writer's pipe. */
  ghost predicate ReadOffers(f: Flight, f1: Flight, user: nat, uid: nat) {
    Mailbox(f.notes, uid, user).Full? &&
    exists c: nat :: Feeders(f.m.k.kids, Mailbox(f.notes, uid, user).id) == {c} && Offers(f1.m.k.fds, f1.m.s.curr, f1.m.k.kids, {c})
  }

  lemma ReadFed(f: Flight, live: set<nat>, user: nat, uid: nat)
    requires UIdle(f, live) && FrontOk(f.m) && Tidy(f.m.k.fds) && BoxFed(f.pipes, f.notes, f.m.k.kids)
    requires 0 < uid && Exists(live, uid) && (user, uid) in f.pipes
    ensures var f1 := UBegin(f, live, user, uid);
            && Tidy(Rest(f1.m)) && f1.m.k.kids == f.m.k.kids && BoxFed(f1.pipes, f1.notes, f1.m.k.kids)
            && ReadOffers(f, f1, user, uid)
  {
    hide Alternate, View, Loop, Barrier, Mailbox, Owns, Feeders, LogOk, KidsOk, Gone;
    var g := f.(m := Begin(f.m));
    TidyBegin(f.m);
    UPrepared(f, live);
    OwnedIn(g.pipes, g.notes, g.m.k.fds, g.m.k.pipes, live, user, uid);
    var id := Mailbox(f.notes, uid, user).id;
    var p := f.pipes[(user, uid)];
    OwnsAbove(g.m.k.fds, p, id);
    TidyLess(g.m.k.fds, p);
    ReadUserReads(g, live, user, uid, p, id);
    BoxFedLess(f, user, uid);
    var f1 := ReadUser(g, live, user, uid);
    ReadsRest(g, f1, g.m.k.fds - Keys(p));
    var c: nat :| Feeders(f.m.k.kids, id) == {c};
    assert Offers(f1.m.k.fds, f1.m.s.curr, f1.m.k.kids, {c});
  }

  lemma OwnsAbove(t: Table, p: Ends, id: nat)
    requires Owns(t, p, id)
    ensures Above(p)
  {
  }

  lemma ReadsRest(f: Flight, r: Flight, base: Table)
    requires ReadsFrom(f, r, base, r.m.s.curr.rd) && f.m.s.prev == NoEnds
    ensures Rest(r.m) == base && r.m.k.kids == f.m.k.kids
  {
    assert Keys(Ends(r.m.s.curr.rd, -1)) == {r.m.s.curr.rd};
    assert r.m.k.fds - {} - {r.m.s.curr.rd} == r.m.k.fds - {r.m.s.curr.rd};
  }

  lemma BeginFed(f: Flight, live: set<nat>, user: nat, uid: int)
    requires UIdle(f, live) && FrontOk(f.m) && Tidy(f.m.k.fds) && BoxFed(f.pipes, f.notes, f.m.k.kids)
    ensures var f1 := UBegin(f, live, user, uid);
            && Tidy(Rest(f1.m)) && f1.m.k.kids == f.m.k.kids && BoxFed(f1.pipes, f1.notes, f1.m.k.kids)
    ensures 0 < uid && Exists(live, uid) && (user, uid as nat) in f.pipes ==> ReadOffers(f, UBegin(f, live, user, uid), user, uid)
  {
    var g := f.(m := Begin(f.m));
    TidyBegin(f.m);
    if 0 < uid {
      if Exists(live, uid) && (user, uid as nat) in f.pipes {
        ReadFed(f, live, user, uid);
      } else {
        hide Tidy, BoxFed, Alternate, View, Loop, Barrier, Mailbox, Owns;
        UPrepared(f, live);
        ReadNullOk(f.m, g, live);
        ReadsRest(g, ReadNull(g), g.m.k.fds);
      }
    }
  }

  /** The state in which the stages start. */
  lemma StartWeave(f: Flight, f1: Flight)
    requires Tidy(Rest(f1.m)) && BoxFed(f1.pipes, f1.notes, f1.m.k.kids)
    ensures Weave(f1.m, f1)
  {
    hide Tidy, BoxFed, Fed;
  }

  /** What a piece's first child reads if the piece reads a user pipe: the very pipe the sender
      wrote last, which exactly one child writes, and nobody else reads. */
  ghost predicate Receives(f: Flight, r: Flight, user: nat, uid: nat) {
    && Mailbox(f.notes, uid, user).Full? && |f.m.k.kids| < |r.m.k.kids|
    && In(r.m.k.kids[|f.m.k.kids|]) == ReadEnd(Mailbox(f.notes, uid, user).id)
    && exists c: nat :: c < |f.m.k.kids| && Fed(r.m.k.kids, |f.m.k.kids|, {c})
  }

  lemma FirstReceives(f: Flight, f1: Flight, r: Flight, user: nat, uid: nat)
    requires f1.m.k.kids == f.m.k.kids <= r.m.k.kids && ReadOffers(f, f1, user, uid) && FirstFed(f1.m, r.m)
    ensures Receives(f, r, user, uid)
  {
    var id := Mailbox(f.notes, uid, user).id;
    hide Mailbox;
    var c: nat :| Feeders(f.m.k.kids, id) == {c} && Offers(f1.m.k.fds, f1.m.s.curr, f1.m.k.kids, {c});
    assert Fed(r.m.k.kids, |f.m.k.kids|, {c});
    assert c in Feeders(f.m.k.kids, id) && c in Feeders(r.m.k.kids, In(r.m.k.kids[|f.m.k.kids|]).id);
  }

  /** A piece of any user: its children start with no pipe and no file but as standard descriptors;
      every unread user pipe, one it has just written included, is written by exactly one child;
      nobody's reading changes; and if it reads a user pipe, its first child reads that pipe. */
  lemma UPieceFed(f: Flight, live: set<nat>, user: nat, p: Piece)
    requires |f.m.s.ring| == SIZE && UIdle(f, live) && FrontOk(f.m) && UShape(p)
    requires p.readUid <= 0 ==> forall r: nat, s: nat :: (r, s) in f.pipes ==>
               Mailbox(f.notes, s, r).id !in Taken(f, live, user, p.readUid)
    requires EndsNumbered(p.cmds) ==> UTargetOk(f, p.cmds[|p.cmds| - 1].n, Taken(f, live, user, p.readUid))
    requires EndsNumbered(p.cmds) ==>
               var n := p.cmds[|p.cmds| - 1].n; TargetUnboxed(f, n, f.m.s.ring[Slot(f.m.s.head, n + 1)])
    requires Tidy(f.m.k.fds) && BoxFed(f.pipes, f.notes, f.m.k.kids)
    ensures var r := URun(f, live, user, p);
            && KidsFed(f.m, r) && Tidy(r.m.k.fds)
            && (0 < p.readUid && Exists(live, p.readUid) && (user, p.readUid as nat) in f.pipes ==>
                  Receives(f, r, user, p.readUid))
  {
    hide UGoing, Frame, Taken, UBegin, UStages, UShape, UIdle, Mailbox, FrontOk, UTargetOk, URun, Tidy, BoxFed, TargetUnboxed,
      KidsFed, Weave, FirstFed, ReadOffers, Slot;
    var base: Table;
    if p.readUid <= 0 {
      base := UBeginPlain(f, live, user, p.readUid);
    } else {
      base := UBeginRead(f, live, user, p.readUid);
    }
    var f1 := UBegin(f, live, user, p.readUid);
    BeginFed(f, live, user, p.readUid);
    StartWeave(f, f1);
    var r := URun(f, live, user, p);
    assert KidsFed(f1.m, r) && FirstFed(f1.m, r.m) && Tidy(r.m.k.fds) by {
      if EndsNumbered(p.cmds) {
        LandFed(f, live, user, p, f1, base, Taken(f, live, user, p.readUid));
      } else {
        PlainFed(f1, base, f.m.k.pipes, live, user, p);
        RunIs(f, live, user, p);
      }
    }
    StartSame(f, f1, r);
    if 0 < p.readUid && Exists(live, p.readUid) && (user, p.readUid as nat) in f.pipes {
      FirstReceives(f, f1, r, user, p.readUid);
    }
  }

  lemma RunIs(f: Flight, live: set<nat>, user: nat, p: Piece)
    requires |f.m.s.ring| == SIZE
    ensures var f2 := UStages(UBegin(f, live, user, p.readUid), live, user, p, StageCount(p.cmds));
            URun(f, live, user, p) == f2.(m := Finish(f2.m, EndsNumbered(p.cmds)))
  {
    hide UBegin, UStages, Finish;
  }

  lemma StartSame(f: Flight, f1: Flight, r: Flight)
    requires f1.m.k.kids == f.m.k.kids && KidsFed(f1.m, r)
    ensures KidsFed(f.m, r) && f.m.k.kids <= r.m.k.kids
  {
    hide Keeps, Bare, BoxFed;
  }

  lemma LandFed(f: Flight, live: set<nat>, user: nat, p: Piece, f1: Flight, base: Table, gone: set<nat>)
    requires |f.m.s.ring| == SIZE && UShape(p) && EndsNumbered(p.cmds)
    requires f1 == UBegin(f, live, user, p.readUid) && |f1.m.s.ring| == SIZE
    requires UGoing(f1.m, f1, base, f.m.k.pipes, 0, live) && Begun(f.m, f1.m) && Weave(f1.m, f1)
    requires Frame(f.m.k.fds, base, f.m.k.pipes, gone)
    requires var n := p.cmds[|p.cmds| - 1].n; UTargetOk(f, n, gone) && TargetUnboxed(f, n, f.m.s.ring[Slot(f.m.s.head, n + 1)])
    ensures var r := URun(f, live, user, p); KidsFed(f1.m, r) && FirstFed(f1.m, r.m) && Tidy(r.m.k.fds)
  {
    hide UGoing, Frame, UBegin, UStages, UShape, UTargetOk, URun, Tidy, TargetUnboxed, KidsFed, Weave, FirstFed, Slot, LinkOf, BoxKeep,
      LandNumbered, NextHead;
    ULinks(p);
    var f2, base' := UReach(f, live, user, p, f1, base, gone);
    var j := StageCount(p.cmds) - 1;
    WeaveStages(f1, base, f.m.k.pipes, live, user, p, j);
    BeginBoxes(f, live, user, p.readUid);
    StagesBoxes(f1, live, user, p, j);
    BoxTrans(f, f1, f2);
    NoStages(f1, live, user, p);
    var c := p.cmds[|p.cmds| - 1];
    NumberedFed(f, f1, f2, base', live, j, c.n, c.err, gone, ArgvOf(p.cmds, StageCount(p.cmds) - 1));
  }

  lemma NoStages(f: Flight, live: set<nat>, user: nat, p: Piece)
    requires |f.m.s.ring| == SIZE
    ensures UStages(f, live, user, p, 0) == f
  {
  }
}
