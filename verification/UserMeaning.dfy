/** What a user's piece means, written out: where every one of its programs reads and writes. */
module UserMeaning {
  import opened Kernel
  import opened Pipes
  import opened Shell
  import opened Ownership
  import opened Stages
  import opened Pieces
  import opened PieceRuns
  import opened Wiring
  import opened UserShell
  import opened UserPipes
  import opened UserStages
  import opened UserPieces
  import opened UserWiring
  import opened Programs

  /** The child a stage adds: it reads what the current pipe of m names, or else the terminal; its
      output is o, and its errors go there too if err says so. */
  ghost predicate Shows(m: Machine, r: Machine, o: Obj, err: bool) {
    && |r.k.kids| == |m.k.kids| + 1 && m.k.kids <= r.k.kids
    && var c := r.k.kids[|m.k.kids|];
       && In(c) == (if m.s.curr.rd == -1 then Other(0) else At(m.k.fds, m.s.curr.rd))
       && Out(c) == o && Err(c) == if err then o else Other(2)
  }

  /** The fork itself. */
  lemma SpawnShows(m: Machine, m2: Machine, err: bool, argv: seq<string>)
    requires Ready(m2) && StdIs(m2.k.fds) && m2.s.prev == m.s.curr && m2.k.kids == m.k.kids
    requires m.s.curr.rd == -1 || (m.s.curr.rd in m.k.fds && m.s.curr.rd in m2.k.fds && m2.k.fds[m.s.curr.rd].obj == m.k.fds[m.s.curr.rd].obj)
    requires err ==> m2.s.curr.wr in m2.k.fds && m2.s.curr.wr !in Keys(m2.s.prev)
    ensures Shows(m, Spawn(m2, err, argv), OutputOf(m2.k.fds, m2.s.prev, m2.s.curr, 1), err)
  {
    SpawnOk(m2, err, argv);
    SpawnView(m2.k.fds, m2.k.pipes, m2.s.prev, m2.s.curr, err, argv);
    hide View, ChildProgram, Sole, Gone;
    assert -1 !in m2.k.fds;
  }

  /** At the head of the loop the current pipe reads from nothing or from an open descriptor. */
  lemma CurrOpen(m: Machine, base: Table)
    requires Loop(m, base)
    ensures m.s.curr.rd == -1 || m.s.curr.rd in m.k.fds
  {
    hide Sound, Gone, Sole;
  }

  /** What the next stage is going to read. */
  ghost predicate Passes(m: Machine, r: Machine, link: Link) {
    if link == Via(PipeTo) then r.s.curr.rd in r.k.fds && r.k.fds[r.s.curr.rd].obj == ReadEnd(m.k.pipes)
    else r.s.curr.rd == -1
  }

  lemma OrdinaryShows(m: Machine, base: Table, link: Link, argv: seq<string>)
    requires Loop(m, base) && Ordinary(link) && StdIs(base)
    ensures var r := Stage(m, link, argv);
            && Shows(m, r, if link.c.PipeTo? then WriteEnd(m.k.pipes) else File(link.c.name), false)
            && Passes(m, r, link)
  {
    StdRest(m, base);
    CurrOpen(m, base);
    ShiftOk(m, base);
    var m1 := Shift(m);
    var m2 := Connect(m1, link);
    if link.c.PipeTo? { NewPipeOk(m1); } else { NewFileOk(m1, link.c.name); }
    SpawnOk(m2, false, argv);
    hide Sound, Gone, Sole, Spawn, LogOk, Shows;
    SpawnShows(m, m2, false, argv);
  }

  lemma WriteShows(m: Machine, base: Table, e: nat, first: nat, argv: seq<string>)
    requires Loop(m, base) && Barrier(m, base, e, first) && StdIs(base)
    ensures var r := WriteStage(m, argv); Shows(m, r, WriteEnd(m.k.pipes), false) && r.s.curr.rd == -1
  {
    StdRest(m, base);
    CurrOpen(m, base);
    ShiftOk(m, base);
    var m1 := Shift(m);
    WriteReady(m1, base);
    UserPipeTable(m1.k);
    var m2 := WriteMachine(m1);
    SpawnOk(m2, false, argv);
    hide Sound, Gone, Sole, Spawn, LogOk, Barrier, Apply, LowestFree, View, Shows;
    SpawnShows(m, m2, false, argv);
  }

  lemma OpenShows(m: Machine, base: Table, argv: seq<string>)
    requires Loop(m, base) && StdIs(base)
    ensures Shows(m, Stage(m, NoLink, argv), Other(1), false)
  {
    StdRest(m, base);
    CurrOpen(m, base);
    ShiftOk(m, base);
    var m1 := Shift(m);
    assert OutputOf(m1.k.fds, m1.s.prev, m1.s.curr, 1) == Other(1) by { OutAlias(m1.k, m1.s.prev); }
    hide Sound, Gone, Sole, Spawn, LogOk, Shows;
    SpawnShows(m, m1, false, argv);
  }

  lemma NumberedShows(m0: Machine, m: Machine, base: Table, e: nat, j: nat, n: int, err: bool, argv: seq<string>)
    requires |m.s.ring| == SIZE && Going(m0, m, base, e, j) && StdIs(base)
    requires var p := m.s.ring[Slot(m.s.head, n)];
             p == NoEnds || (Holds(base, p) && Keys(p) !! Keys(m.s.eol) && p.wr != -1)
    ensures Shows(m, Spawn(Connect(Shift(m), Via(Numbered(n, err))), err, argv), NumberedPipe(m, n), err)
  {
    StdRest(m, base);
    CurrOpen(m, base);
    ShiftOk(m, base);
    NumberedConnect(m0, m, base, e, j, n, err);
    var m1 := Shift(m);
    var m2 := Connect(m1, Via(Numbered(n, err)));
    var p := m.s.ring[Slot(m.s.head, n)];
    hide Sound, Gone, Sole, Spawn, LogOk, Barrier, Slot, Shows;
    if p == NoEnds {
      NewPipeOk(m1);
      assert m2.k == Connect(m1, Via(PipeTo)).k;
    }
    assert StdIs(m2.k.fds);
    SpawnShows(m, m2, err, argv);
  }

  /** Where the output of a stage in front of a connector other than a numbered one goes. */
  ghost function StageOut(f: Flight, live: set<nat>, user: nat, writeUid: int, link: Link): Obj {
    match link
    case Via(PipeTo) => WriteEnd(f.m.k.pipes)
    case Via(FileTo(name)) => File(name)
    case Via(UserTo) =>
      if Exists(live, writeUid) && (writeUid as nat, user) !in f.pipes then WriteEnd(f.m.k.pipes) else File("/dev/null")
    case _ => Other(1)
  }

  lemma UStageShows(m0: Machine, f: Flight, base: Table, e: nat, j: nat, live: set<nat>, user: nat, writeUid: int, link: Link, argv: seq<string>)
    requires |f.m.s.ring| == SIZE && UGoing(m0, f, base, e, j, live) && Onwards(link, writeUid) && StdIs(base)
    ensures var r := UStage(f, live, user, writeUid, link, argv);
            && Shows(f.m, r.m, StageOut(f, live, user, writeUid, link), false)
            && Passes(f.m, r.m, link)
  {
    hide Stage, WriteStage, NewEnds, Shift, Shows, UStage, Loop, Barrier, StdIs, Going;
    UShift(m0, f, base, e, j, live);
    GoingFacts(m0, f, base, e, j, live);
    UStageIs(f, live, user, writeUid, link, argv);
    if Ordinary(link) {
      OrdinaryShows(f.m, base, link, argv);
    } else if Exists(live, writeUid) && (writeUid as nat, user) !in f.pipes {
      WriteShows(f.m, base, e, |m0.k.kids|, argv);
    } else {
      OrdinaryShows(f.m, base, Via(FileTo("/dev/null")), argv);
    }
  }

  /** A pipe made for the next stage is written by its left neighbour alone. */
  lemma PassesOffers(m: Machine, r: Machine, o: Obj)
    requires KidsOk(m.k.kids, m.k.pipes) && Shows(m, r, o, false) && o == WriteEnd(m.k.pipes)
    requires r.s.curr.rd in r.k.fds && r.k.fds[r.s.curr.rd].obj == ReadEnd(m.k.pipes)
    ensures Offers(r.k.fds, r.s.curr, r.k.kids, {|m.k.kids|})
  {
    hide KidsOk, View;
    FreshFeeders(m.k.kids, m.k.pipes);
    var c := r.k.kids[|m.k.kids|];
    assert r.k.kids == m.k.kids + [c];
    FeedersGrow(m.k.kids, c, m.k.pipes);
  }

  /** Stage i of a piece whose first child is number first: its child's output and errors go where the
      connector behind it says, and it reads its left neighbour's pipe, alone, or the terminal. */
  ghost predicate Placed(kids: seq<Child>, first: nat, p: Piece, i: nat) {
    && first + i < |kids|
    && var c := kids[first + i]; var link := LinkOf(p.cmds, i);
       && Err(c) == (if PipeError(link) then Out(c) else Other(2))
       && (link == NoLink ==> Out(c) == Other(1))
       && (link.Via? && link.c.FileTo? ==> Out(c) == File(link.c.name))
       && (link.Via? && (link.c.PipeTo? || link.c.Numbered?) ==> Out(c).WriteEnd?)
       && (i > 0 ==> if LinkOf(p.cmds, i - 1) == Via(PipeTo) then Fed(kids, first + i, {first + i - 1}) else In(c) == Other(0))
  }

  lemma PlacedStays(kids: seq<Child>, kids': seq<Child>, first: nat, p: Piece, i: nat)
    requires Placed(kids, first, p, i) && kids <= kids' && Keeps(kids, kids')
    ensures Placed(kids', first, p, i)
  {
    hide Fed, View;
    assert kids'[first + i] == kids[first + i];
  }

  /** What the next stage, number j, finds in the current pipe. */
  ghost predicate Awaiting(f: Flight, first: nat, p: Piece, j: nat) {
    j > 0 ==>
      if LinkOf(p.cmds, j - 1) == Via(PipeTo) then Offers(f.m.k.fds, f.m.s.curr, f.m.k.kids, {first + j - 1})
      else f.m.s.curr.rd == -1
  }

  /** What the piece's first child reads. */
  ghost predicate FirstIn(m1: Machine, kids: seq<Child>) {
    && |m1.k.kids| < |kids|
    && In(kids[|m1.k.kids|]) == if m1.s.curr.rd == -1 then Other(0) else At(m1.k.fds, m1.s.curr.rd)
  }

  /** The first j stages of a piece that began in f1. */
  ghost predicate Shown(f1: Flight, f: Flight, p: Piece, j: nat) {
    && |f.m.k.kids| == |f1.m.k.kids| + j && f1.m.k.kids <= f.m.k.kids
    && (forall i :: 0 <= i < j ==> Placed(f.m.k.kids, |f1.m.k.kids|, p, i))
    && (j > 0 ==> FirstIn(f1.m, f.m.k.kids))
    && Awaiting(f, |f1.m.k.kids|, p, j)
  }

  /** The child that stage j adds is in its place. */
  lemma PlacedNext(f1: Flight, f: Flight, r: Machine, p: Piece, j: nat, o: Obj)
    requires Shown(f1, f, p, j) && StageFed(f.m, r) && (if j == 0 then f.m == f1.m else true)
    requires Shows(f.m, r, o, PipeError(LinkOf(p.cmds, j)))
    requires var link := LinkOf(p.cmds, j);
             && (link == NoLink ==> o == Other(1)) && (link.Via? && link.c.FileTo? ==> o == File(link.c.name))
             && (link.Via? && (link.c.PipeTo? || link.c.Numbered?) ==> o.WriteEnd?)
    ensures forall i :: 0 <= i < j + 1 ==> Placed(r.k.kids, |f1.m.k.kids|, p, i)
    ensures FirstIn(f1.m, r.k.kids)
  {
    hide View, LinkOf;
    var first := |f1.m.k.kids|;
    if j > 0 && LinkOf(p.cmds, j - 1) == Via(PipeTo) {
      assert Fed(r.k.kids, first + j, {first + j - 1});
    }
    assert Placed(r.k.kids, first, p, j) by { hide Fed; }
    hide Fed, Offers;
    forall i | 0 <= i < j
      ensures Placed(r.k.kids, first, p, i)
    {
      PlacedStays(f.m.k.kids, r.k.kids, first, p, i);
    }
    if j > 0 { assert r.k.kids[first] == f.m.k.kids[first]; }
  }

  lemma ShownNext(f1: Flight, f: Flight, base: Table, e: nat, j: nat, live: set<nat>, user: nat, p: Piece)
    requires |f.m.s.ring| == SIZE && UGoing(f1.m, f, base, e, j, live) && Onwards(LinkOf(p.cmds, j), p.writeUid) && Weave(f1.m, f)
    requires Shown(f1, f, p, j) && (j == 0 ==> f.m == f1.m)
    ensures Shown(f1, UStage(f, live, user, p.writeUid, LinkOf(p.cmds, j), ArgvOf(p.cmds, j)), p, j + 1)
  {
    hide UGoing, UStage, Weave, StageFed, Shows, Placed, FirstIn, KidsOk, Loop, Barrier, LinkOf, Tidy, Unboxed;
    var link := LinkOf(p.cmds, j);
    GoingFacts(f1.m, f, base, e, j, live);
    assert StdIs(base) by { WeaveTidy(f1.m, f); StdOf(base); }
    UStageShows(f1.m, f, base, e, j, live, user, p.writeUid, link, ArgvOf(p.cmds, j));
    UserWiring.WeaveStage(f1.m, f, base, e, j, live, user, p.writeUid, link, ArgvOf(p.cmds, j));
    var r := UStage(f, live, user, p.writeUid, link, ArgvOf(p.cmds, j));
    var o := StageOut(f, live, user, p.writeUid, link);
    PlacedNext(f1, f, r.m, p, j, o);
    assert |r.m.k.kids| == |f.m.k.kids| + 1 && f.m.k.kids <= r.m.k.kids by { OneShown(f.m, r.m, o, false); }
    if link == Via(PipeTo) {
      PassesOffers(f.m, r.m, o);
    }
  }

  lemma OneShown(m: Machine, r: Machine, o: Obj, err: bool)
    requires Shows(m, r, o, err)
    ensures |r.k.kids| == |m.k.kids| + 1 && m.k.kids <= r.k.kids
  {
  }

  lemma StdOf(t: Table)
    requires Tidy(t)
    ensures StdIs(t)
  {
  }

  /** The first of the first j connectors that writes to a user; j if none does. */
  function FirstUserTo(p: Piece, j: nat): (i: nat)
    ensures i <= j && (forall h :: 0 <= h < i ==> LinkOf(p.cmds, h) != Via(UserTo)) && (i < j ==> LinkOf(p.cmds, i) == Via(UserTo))
  {
    if j == 0 then 0
    else if FirstUserTo(p, j - 1) < j - 1 then FirstUserTo(p, j - 1)
    else if LinkOf(p.cmds, j - 1) == Via(UserTo) then j - 1 else j
  }

  /** User user has written the pipe o for uid, and nothing else has happened to the user pipes. */
  ghost predicate Sent(f1: Flight, f: Flight, user: nat, uid: int, o: Obj) {
    && o.WriteEnd? && 0 < uid && f.notes == f1.notes + [Wrote(user, uid, o.id)]
    && (uid as nat, user) in f.pipes && (uid as nat, user) !in f1.pipes && f.pipes - {(uid as nat, user)} == f1.pipes
  }

  /** What the first j stages have done to the user pipes: the first `>n`, if n is there and has read
      what he was sent before, has sent him its output; any other output to a user is thrown away. */
  ghost predicate Told(f1: Flight, f: Flight, live: set<nat>, user: nat, p: Piece, j: nat) {
    var first := |f1.m.k.kids|;
    var i := FirstUserTo(p, j);
    && |f.m.k.kids| == first + j
    && if i == j then f.pipes == f1.pipes && f.notes == f1.notes
       else
         && (forall h :: i < h < j && LinkOf(p.cmds, h) == Via(UserTo) ==> Out(f.m.k.kids[first + h]) == File("/dev/null"))
         && if Exists(live, p.writeUid) && (p.writeUid as nat, user) !in f1.pipes then
              Sent(f1, f, user, p.writeUid, Out(f.m.k.kids[first + i]))
            else f.pipes == f1.pipes && f.notes == f1.notes && Out(f.m.k.kids[first + i]) == File("/dev/null")
  }

  lemma ToldNext(f1: Flight, f: Flight, r: Flight, live: set<nat>, user: nat, p: Piece, j: nat, o: Obj)
    requires Told(f1, f, live, user, p, j) && Shows(f.m, r.m, o, false) && f1.m.k.kids <= f.m.k.kids
    requires var link := LinkOf(p.cmds, j);
             if link == Via(UserTo) && Exists(live, p.writeUid) && (p.writeUid as nat, user) !in f.pipes then Sent(f, r, user, p.writeUid, o)
             else r.pipes == f.pipes && r.notes == f.notes && (link == Via(UserTo) ==> o == File("/dev/null"))
    ensures Told(f1, r, live, user, p, j + 1)
  {
    hide View, LinkOf, Exists;
    var first := |f1.m.k.kids|;
    assert r.m.k.kids[first + j] == r.m.k.kids[|f.m.k.kids|];
  }

  lemma UStageTells(f: Flight, live: set<nat>, user: nat, writeUid: int, link: Link, argv: seq<string>)
    requires |f.m.s.ring| == SIZE && TableOk(Shift(f.m).k.fds, f.m.k.pipes) && Shift(f.m).k.pipes == f.m.k.pipes && Onwards(link, writeUid)
    ensures var r := UStage(f, live, user, writeUid, link, argv); var o := StageOut(f, live, user, writeUid, link);
            if link == Via(UserTo) && Exists(live, writeUid) && (writeUid as nat, user) !in f.pipes then Sent(f, r, user, writeUid, o)
            else r.pipes == f.pipes && r.notes == f.notes && (link == Via(UserTo) ==> o == File("/dev/null"))
  {
    hide UStage, Stage, WriteStage, NewEnds, Shift;
    UStageIs(f, live, user, writeUid, link, argv);
  }

  lemma {:induction false} StagesShown(f: Flight, base: Table, e: nat, live: set<nat>, user: nat, p: Piece, j: nat)
    requires |f.m.s.ring| == SIZE && UGoing(f.m, f, base, e, 0, live) && AllOnwards(p, j) && Weave(f.m, f)
    ensures Shown(f, UStages(f, live, user, p, j), p, j) && Told(f, UStages(f, live, user, p, j), live, user, p, j)
  {
    hide UGoing, UStage, Frame, LinkOf, Weave, Onwards, Shown, Told, Shows, Sent, StageOut, Exists;
    if j == 0 {
      assert Shown(f, f, p, 0) && Told(f, f, live, user, p, 0) by { NothingShown(f, live, user, p); }
    } else {
      StagesShown(f, base, e, live, user, p, j - 1);
      UserWiring.WeaveStages(f, base, e, live, user, p, j - 1);
      var b := UStagesOk(f, base, e, live, user, p, j - 1);
      var f1 := UStages(f, live, user, p, j - 1);
      var link, argv := LinkOf(p.cmds, j - 1), ArgvOf(p.cmds, j - 1);
      ShownNext(f, f1, b, e, j - 1, live, user, p);
      UShift(f.m, f1, b, e, j - 1, live);
      UStageTells(f1, live, user, p.writeUid, link, argv);
      assert StdIs(b) by { StdGoing(f.m, f1, b, e, j - 1, live); }
      UStageShows(f.m, f1, b, e, j - 1, live, user, p.writeUid, link, argv);
      GrownKids(f, f1, p, j - 1);
      ToldNext(f, f1, UStages(f, live, user, p, j), live, user, p, j - 1, StageOut(f1, live, user, p.writeUid, link));
    }
  }

  lemma NothingShown(f: Flight, live: set<nat>, user: nat, p: Piece)
    ensures Shown(f, f, p, 0) && Told(f, f, live, user, p, 0)
  {
  }

  lemma GrownKids(f1: Flight, f: Flight, p: Piece, j: nat)
    requires Shown(f1, f, p, j)
    ensures f1.m.k.kids <= f.m.k.kids
  {
  }

  lemma StdGoing(m0: Machine, f: Flight, base: Table, e: nat, j: nat, live: set<nat>)
    requires UGoing(m0, f, base, e, j, live) && Weave(m0, f)
    ensures StdIs(base)
  {
    GoingFacts(m0, f, base, e, j, live);
    WeaveTidy(m0, f);
    StdOf(base);
  }

  /** All stages of a piece that began in f1 and led to r. */
  ghost predicate AllPlaced(f1: Flight, r: Flight, live: set<nat>, user: nat, p: Piece) {
    var n := StageCount(p.cmds);
    && |r.m.k.kids| == |f1.m.k.kids| + n && f1.m.k.kids <= r.m.k.kids
    && (forall i :: 0 <= i < n ==> Placed(r.m.k.kids, |f1.m.k.kids|, p, i))
    && FirstIn(f1.m, r.m.k.kids) && Told(f1, r, live, user, p, n)
  }

  lemma ShownPlaced(f1: Flight, f: Flight, live: set<nat>, user: nat, p: Piece)
    requires Shown(f1, f, p, StageCount(p.cmds)) && Told(f1, f, live, user, p, StageCount(p.cmds)) && 0 < StageCount(p.cmds)
    ensures AllPlaced(f1, f, live, user, p)
  {
    hide Placed, FirstIn, Told;
  }

  /** What follows the loop over the stages adds no child and touches no user pipe. */
  lemma EndPlaced(f1: Flight, f: Flight, live: set<nat>, user: nat, p: Piece, numbered: bool)
    requires AllPlaced(f1, f, live, user, p)
    ensures AllPlaced(f1, f.(m := Finish(f.m, numbered)), live, user, p)
  {
    hide Placed, FirstIn, Finish, Exists;
    FinishKids(f.m, numbered);
  }

  /** The last stage, with o behind it. */
  lemma LastPlaced(f1: Flight, f: Flight, r: Machine, live: set<nat>, user: nat, p: Piece, o: Obj)
    requires 0 < StageCount(p.cmds)
    requires var j := StageCount(p.cmds) - 1; var link := LinkOf(p.cmds, j);
             && Shown(f1, f, p, j) && Told(f1, f, live, user, p, j) && StageFed(f.m, r) && (j == 0 ==> f.m == f1.m)
             && Shows(f.m, r, o, PipeError(link))
             && (link == NoLink ==> o == Other(1)) && (link.Via? ==> link.c.Numbered? && o.WriteEnd?)
    ensures AllPlaced(f1, f.(m := r), live, user, p)
  {
    hide Placed, FirstIn, LinkOf, StageFed, Shows, Told, Awaiting;
    var j := StageCount(p.cmds) - 1;
    PlacedNext(f1, f, r, p, j, o);
    OneShown(f.m, r, o, PipeError(LinkOf(p.cmds, j)));
    ToldLast(f1, f, r, live, user, p, j);
  }

  lemma ToldLast(f1: Flight, f: Flight, r: Machine, live: set<nat>, user: nat, p: Piece, j: nat)
    requires Told(f1, f, live, user, p, j) && f.m.k.kids <= r.k.kids && |r.k.kids| == |f.m.k.kids| + 1 && LinkOf(p.cmds, j) != Via(UserTo)
    ensures Told(f1, f.(m := r), live, user, p, j + 1)
  {
    hide View, LinkOf, Exists;
  }

  lemma PlainMeant(f: Flight, base: Table, e: nat, live: set<nat>, user: nat, p: Piece)
    requires |f.m.s.ring| == SIZE && UGoing(f.m, f, base, e, 0, live) && Weave(f.m, f) && UShape(p) && !EndsNumbered(p.cmds)
    ensures var f2 := UStages(f, live, user, p, StageCount(p.cmds)); AllPlaced(f, f2.(m := Finish(f2.m, false)), live, user, p)
  {
    hide UGoing, UStage, Frame, LinkOf, Weave, UShape, EndsNumbered, Shown, Told, AllPlaced, StageFed, Shows, Finish, KidsFed, FirstFed;
    ULinks(p);
    var n := StageCount(p.cmds);
    var f2 := UStages(f, live, user, p, n);
    if |p.cmds| % 2 == 1 {
      StagesShown(f, base, e, live, user, p, n - 1);
      UserWiring.WeaveStages(f, base, e, live, user, p, n - 1);
      var b := UStagesOk(f, base, e, live, user, p, n - 1);
      var f1 := UStages(f, live, user, p, n - 1);
      UOpenIs(f1, live, user, p.writeUid, ArgvOf(p.cmds, n - 1));
      OpenPlaced(f, f1, b, e, live, user, p);
    } else {
      StagesShown(f, base, e, live, user, p, n);
      ShownPlaced(f, f2, live, user, p);
    }
    EndPlaced(f, f2, live, user, p, false);
  }

  lemma OpenPlaced(f: Flight, f1: Flight, base: Table, e: nat, live: set<nat>, user: nat, p: Piece)
    requires 0 < StageCount(p.cmds) && |f1.m.s.ring| == SIZE
    requires var j := StageCount(p.cmds) - 1;
             && LinkOf(p.cmds, j) == NoLink && UGoing(f.m, f1, base, e, j, live) && Weave(f.m, f1)
             && Shown(f, f1, p, j) && Told(f, f1, live, user, p, j) && (j == 0 ==> f1.m == f.m)
    ensures AllPlaced(f, f1.(m := Stage(f1.m, NoLink, ArgvOf(p.cmds, StageCount(p.cmds) - 1))), live, user, p)
  {
    hide UGoing, LinkOf, Weave, Shown, Told, AllPlaced, Shows, Loop, Barrier, Tidy, OneMore, StageFed, Stage, KidsOk, Unboxed;
    var j := StageCount(p.cmds) - 1;
    var argv := ArgvOf(p.cmds, j);
    GoingFacts(f.m, f1, base, e, j, live);
    WeaveTidy(f.m, f1);
    StdOf(base);
    OpenShows(f1.m, base, argv);
    OpenOne(f1.m, base, argv);
    OneIsFed(f1.m, Stage(f1.m, NoLink, argv), Other(1));
    LastPlaced(f, f1, Stage(f1.m, NoLink, argv), live, user, p, Other(1));
  }

  /** What a numbered connector writes to is a pipe, and it is the one its slot names afterwards. */
  ghost predicate Slotted(r: Flight, o: Obj) {
    o.WriteEnd? && r.m.s.curr.wr in r.m.k.fds && r.m.k.fds[r.m.s.curr.wr].obj == o
  }

  lemma SlotPipe(f: Flight, f1: Flight, f2: Flight, base: Table, live: set<nat>, j: nat, n: int, err: bool, gone: set<nat>, argv: seq<string>)
    requires |f.m.s.ring| == SIZE == |f2.m.s.ring| && UGoing(f1.m, f2, base, f.m.k.pipes, j, live)
    requires f2.m.s.ring == f.m.s.ring && f2.m.s.head == NextHead(f.m.s.head)
    requires Frame(f.m.k.fds, base, f.m.k.pipes, gone) && UTargetOk(f, n, gone)
    ensures Slotted(f2.(m := LandNumbered(f2.m, n, err, argv)), NumberedPipe(f2.m, n))
  {
    hide PipesOk, Alternate, Unboxed, LandNumbered, LandTable, Idle, Slot, NextHead, Holds, Loop, Barrier, UTargetOk, Lasting, NoneBack;
    SlotShift(f.m.s.head, n);
    GoingFacts(f1.m, f2, base, f.m.k.pipes, j, live);
    TargetQ(f, n, gone);
    ULand(f, f1, f2, base, live, j, n, err, gone, argv);
    var q := f.m.s.ring[Slot(f.m.s.head, n + 1)];
    if q != NoEnds {
      var id: nat :| Owns(f.m.k.fds, q, id) && id < f.m.k.pipes && id !in gone;
      assert Owns(base, q, id);
      assert At(f2.m.k.fds, q.wr) == WriteEnd(id);
    }
  }

  lemma NumberedPlaced(f: Flight, f1: Flight, f2: Flight, base: Table, live: set<nat>, user: nat, p: Piece, gone: set<nat>)
    requires |f.m.s.ring| == SIZE == |f2.m.s.ring| && 0 < StageCount(p.cmds) && EndsNumbered(p.cmds)
    requires var j := StageCount(p.cmds) - 1; var c := p.cmds[|p.cmds| - 1];
             && LinkOf(p.cmds, j) == Via(c) && UGoing(f1.m, f2, base, f.m.k.pipes, j, live) && Weave(f1.m, f2)
             && Shown(f1, f2, p, j) && Told(f1, f2, live, user, p, j) && (j == 0 ==> f2.m == f1.m)
             && UTargetOk(f, c.n, gone) && Slotted(f2.(m := LandNumbered(f2.m, c.n, c.err, ArgvOf(p.cmds, j))), NumberedPipe(f2.m, c.n))
    requires f2.m.s.ring == f.m.s.ring && f2.m.s.head == NextHead(f.m.s.head) && Frame(f.m.k.fds, base, f.m.k.pipes, gone)
    ensures var c := p.cmds[|p.cmds| - 1];
            var r := f2.(m := LandNumbered(f2.m, c.n, c.err, ArgvOf(p.cmds, StageCount(p.cmds) - 1)));
            && AllPlaced(f1, r, live, user, p) && Slotted(r, Out(r.m.k.kids[|r.m.k.kids| - 1]))
  {
    hide UGoing, LinkOf, Weave, Shown, Told, Shows, Loop, Barrier, Tidy, OneMore, StageFed, KidsOk, Unboxed, Frame, UTargetOk,
      Slot, NextHead, Holds, Spawn, Connect, Shift, Finish, Going, AllPlaced, Owns;
    var j := StageCount(p.cmds) - 1;
    var c := p.cmds[|p.cmds| - 1];
    var argv := ArgvOf(p.cmds, j);
    var e := f.m.k.pipes;
    var q := f.m.s.ring[Slot(f.m.s.head, c.n + 1)];
    SlotShift(f.m.s.head, c.n);
    GoingFacts(f1.m, f2, base, e, j, live);
    WeaveTidy(f1.m, f2);
    StdOf(base);
    TargetQ(f, c.n, gone);
    TargetHeld(f, base, gone, f2.m, e, |f1.m.k.kids|, q);
    assert q != NoEnds ==> q.wr != -1 by { QueueWr(f, q, gone, c.n); }
    assert Going(f1.m, f2.m, base, e, j) by { GoingOf(f1.m, f2, base, e, j, live); }
    NumberedShows(f1.m, f2.m, base, e, j, c.n, c.err, argv);
    NumberedOne(f1.m, f2.m, base, e, j, c.n, c.err, argv);
    var r0 := Spawn(Connect(Shift(f2.m), Via(Numbered(c.n, c.err))), c.err, argv);
    OneIsFed(f2.m, r0, NumberedPipe(f2.m, c.n));
    assert c == Numbered(c.n, c.err) && PipeError(LinkOf(p.cmds, j)) == c.err;
    LastPlaced(f1, f2, r0, live, user, p, NumberedPipe(f2.m, c.n));
    LastShown(f2.m, r0, NumberedPipe(f2.m, c.n), c.err);
    EndPlaced(f1, f2.(m := r0), live, user, p, true);
    FinishKids(r0, true);
  }

  lemma LastShown(m: Machine, r: Machine, o: Obj, err: bool)
    requires Shows(m, r, o, err)
    ensures |r.k.kids| > 0 && Out(r.k.kids[|r.k.kids| - 1]) == o
  {
  }

  lemma QueueWr(f: Flight, q: Ends, gone: set<nat>, n: int)
    requires |f.m.s.ring| == SIZE && q == f.m.s.ring[Slot(f.m.s.head, n + 1)] && UTargetOk(f, n, gone)
    ensures q != NoEnds ==> q.wr != -1
  {
    hide Slot;
  }

  /** What the stages find when they start: what the piece reads first. */
  ghost predicate Begins(f: Flight, f1: Flight, live: set<nat>, user: nat, readUid: int)
    requires |f.m.s.ring| == SIZE
  {
    var input := if f1.m.s.curr.rd == -1 then Other(0) else At(f1.m.k.fds, f1.m.s.curr.rd);
    && f1.m.k.kids == f.m.k.kids
    && if readUid <= 0 then
         && f1.pipes == f.pipes && f1.notes == f.notes
         && input == if Front(f.m) == NoEnds then Other(0) else At(f.m.k.fds, Front(f.m).rd)
       else if Exists(live, readUid) && (user, readUid as nat) in f.pipes then
         && Mailbox(f.notes, readUid, user).Full? && input == ReadEnd(Mailbox(f.notes, readUid, user).id)
         && f1.pipes == f.pipes - {(user, readUid as nat)}
         && f1.notes == f.notes + [Took(readUid, user, Mailbox(f.notes, readUid, user).id)]
       else input == File("/dev/null") && f1.pipes == f.pipes && f1.notes == f.notes
  }

  lemma BeginStarted(f: Flight, live: set<nat>, user: nat, readUid: int)
    requires |f.m.s.ring| == SIZE && UIdle(f, live) && FrontOk(f.m)
    ensures Begins(f, UBegin(f, live, user, readUid), live, user, readUid)
  {
    UBeginKids(f, live, user, readUid);
    if readUid <= 0 {
      FrontStarted(f);
    } else if Exists(live, readUid) && (user, readUid as nat) in f.pipes {
      UserStarted(f, live, user, readUid);
    } else {
      NullStarted(f, live, user, readUid);
    }
  }

  lemma FrontStarted(f: Flight)
    requires |f.m.s.ring| == SIZE && Idle(f.m) && FrontOk(f.m)
    ensures var m1 := Begin(f.m);
            && m1.s.curr == Front(f.m)
            && (Front(f.m) != NoEnds ==> m1.s.curr.rd != -1 && At(m1.k.fds, m1.s.curr.rd) == At(f.m.k.fds, Front(f.m).rd))
  {
    hide Gone, LogOk, KidsOk;
    PipeEffect(f.m.k);
  }

  lemma UserStarted(f: Flight, live: set<nat>, user: nat, readUid: nat)
    requires |f.m.s.ring| == SIZE && UIdle(f, live) && FrontOk(f.m) && 0 < readUid && Exists(live, readUid) && (user, readUid) in f.pipes
    ensures var f1 := UBegin(f, live, user, readUid);
            && Mailbox(f.notes, readUid, user).Full? && f1.m.s.curr.rd != -1
            && At(f1.m.k.fds, f1.m.s.curr.rd) == ReadEnd(Mailbox(f.notes, readUid, user).id)
            && f1.pipes == f.pipes - {(user, readUid)}
            && f1.notes == f.notes + [Took(readUid, user, Mailbox(f.notes, readUid, user).id)]
  {
    hide Alternate, View, Loop, Barrier, Mailbox, LogOk, KidsOk, Gone, Owns;
    var g := f.(m := Begin(f.m));
    UPrepared(f, live);
    OwnedIn(g.pipes, g.notes, g.m.k.fds, g.m.k.pipes, live, user, readUid);
    ReadUserReads(g, live, user, readUid, f.pipes[(user, readUid)], Mailbox(f.notes, readUid, user).id);
  }

  lemma NullStarted(f: Flight, live: set<nat>, user: nat, readUid: int)
    requires |f.m.s.ring| == SIZE && UIdle(f, live) && FrontOk(f.m) && 0 < readUid
    requires !(Exists(live, readUid) && (user, readUid as nat) in f.pipes)
    ensures var f1 := UBegin(f, live, user, readUid);
            && f1.m.s.curr.rd != -1 && At(f1.m.k.fds, f1.m.s.curr.rd) == File("/dev/null") && f1.pipes == f.pipes && f1.notes == f.notes
  {
    hide Alternate, View, Mailbox, Owns, PipesOk;
    var g := f.(m := Begin(f.m));
    assert ReadUser(g, live, user, readUid) == ReadNull(g);
  }

  /** A piece of any user: all its stages, what it begins with, and the pipe a number at its end names. */
  lemma UPieceMeant(f: Flight, live: set<nat>, user: nat, p: Piece)
    requires |f.m.s.ring| == SIZE && UIdle(f, live) && FrontOk(f.m) && UShape(p)
    requires p.readUid <= 0 ==> forall r: nat, s: nat :: (r, s) in f.pipes ==>
               Mailbox(f.notes, s, r).id !in Taken(f, live, user, p.readUid)
    requires EndsNumbered(p.cmds) ==> UTargetOk(f, p.cmds[|p.cmds| - 1].n, Taken(f, live, user, p.readUid))
    requires Tidy(f.m.k.fds) && BoxFed(f.pipes, f.notes, f.m.k.kids)
    ensures var f1 := UBegin(f, live, user, p.readUid); var r := URun(f, live, user, p);
            && AllPlaced(f1, r, live, user, p) && Begins(f, f1, live, user, p.readUid)
            && (EndsNumbered(p.cmds) ==> |r.m.k.kids| > 0 && Slotted(r, Out(r.m.k.kids[|r.m.k.kids| - 1])))
  {
    hide UGoing, Frame, Taken, UBegin, UStages, UShape, UIdle, Mailbox, FrontOk, UTargetOk, URun, Tidy, BoxFed,
      Weave, AllPlaced, Slotted, Begins;
    var base: Table;
    if p.readUid <= 0 {
      base := UBeginPlain(f, live, user, p.readUid);
    } else {
      base := UBeginRead(f, live, user, p.readUid);
    }
    var f1 := UBegin(f, live, user, p.readUid);
    BeginStarted(f, live, user, p.readUid);
    BeginFed(f, live, user, p.readUid);
    StartWeave(f, f1);
    if EndsNumbered(p.cmds) {
      NumberedMeant(f, live, user, p, f1, base, Taken(f, live, user, p.readUid));
    } else {
      PlainMeant(f1, base, f.m.k.pipes, live, user, p);
      RunIs(f, live, user, p);
    }
  }

  lemma NumberedMeant(f: Flight, live: set<nat>, user: nat, p: Piece, f1: Flight, base: Table, gone: set<nat>)
    requires |f.m.s.ring| == SIZE && UShape(p) && EndsNumbered(p.cmds)
    requires f1 == UBegin(f, live, user, p.readUid) && |f1.m.s.ring| == SIZE
    requires UGoing(f1.m, f1, base, f.m.k.pipes, 0, live) && Begun(f.m, f1.m) && Weave(f1.m, f1)
    requires Frame(f.m.k.fds, base, f.m.k.pipes, gone) && UTargetOk(f, p.cmds[|p.cmds| - 1].n, gone)
    ensures var r := URun(f, live, user, p);
            AllPlaced(f1, r, live, user, p) && |r.m.k.kids| > 0 && Slotted(r, Out(r.m.k.kids[|r.m.k.kids| - 1]))
  {
    hide UGoing, Frame, UBegin, UStages, UShape, UTargetOk, URun, Weave, LinkOf, LandNumbered, NextHead, AllPlaced, Slotted, Shown, Told;
    ULinks(p);
    var f2, base' := UReach(f, live, user, p, f1, base, gone);
    var j := StageCount(p.cmds) - 1;
    UserWiring.WeaveStages(f1, base, f.m.k.pipes, live, user, p, j);
    StagesShown(f1, base, f.m.k.pipes, live, user, p, j);
    NoStages(f1, live, user, p);
    var c := p.cmds[|p.cmds| - 1];
    SlotPipe(f, f1, f2, base', live, j, c.n, c.err, gone, ArgvOf(p.cmds, j));
    NumberedPlaced(f, f1, f2, base', live, user, p, gone);
    PlacedSome(f1, URun(f, live, user, p), live, user, p);
  }

  lemma PlacedSome(f1: Flight, r: Flight, live: set<nat>, user: nat, p: Piece)
    requires AllPlaced(f1, r, live, user, p)
    ensures |r.m.k.kids| > 0
  {
    hide Placed, Told;
  }
}
