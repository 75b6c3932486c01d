/**
 What the invariant of the single-process server means: the user pipes of every pair alternate,
 a read leaves no writer behind, and every user's delayed pipes are those he would have alone.
 */
module Independence {
  import opened Kernel
  import opened Pipes
  import opened Shell
  import opened Ownership
  import opened Pieces
  import opened PieceRuns
  import opened Runs
  import opened Accounts
  import opened UserShell
  import opened UserPipes
  import opened UserStages
  import opened UserPieces
  import opened World
  import opened WorldRuns

  /** Over every run: between joins of the receiver, the successful writes and reads of each pair
      alternate, starting with a write, and a read takes the pipe of the write just before it. */
  lemma UserPipesAlternate(es: seq<Act>)
    requires AllProper(es)
    ensures Alternate(After(es).notes)
  {
    hide After, AllProper;
    var dues := AfterOk(es);
    WorldParts(After(es), dues);
  }

  /** Over every run a registered receiver has an unread pipe from a sender exactly when the last
      thing between them was a write, and the server then holds both its ends. */
  lemma UnreadPipes(es: seq<Act>, s: nat, r: nat)
    requires AllProper(es) && r in After(es).users
    ensures var w := After(es);
            && ((r, s) in w.pipes <==> Mailbox(w.notes, s, r).Full?)
            && ((r, s) in w.pipes ==> Owns(w.k.fds, w.pipes[(r, s)], Mailbox(w.notes, s, r).id))
  {
    hide After, AllProper, Owns, Mailbox;
    var dues := AfterOk(es);
    WorldParts(After(es), dues);
  }

  /** In every run, a user's piece with `<s` and an unread pipe from s starts with a copy of the
      read end of the very pipe s wrote last, and no write end of it is left in the server. */
  lemma ReadDetaches(es: seq<Act>, u: nat, s: nat)
    requires AllProper(es) && u in After(es).users && (u, s) in After(es).pipes
    requires Exists(After(es).users.Keys, s)
    ensures |After(es).users[u].shell.ring| == SIZE && Mailbox(After(es).notes, s, u).Full?
    ensures var w := After(es); var r := UBegin(FlightOf(w, u), w.users.Keys, u, s); var id := Mailbox(w.notes, s, u).id;
            && At(r.m.k.fds, r.m.s.curr.rd) == ReadEnd(id)
            && (forall fd :: fd in r.m.k.fds ==> r.m.k.fds[fd].obj != WriteEnd(id))
            && Mailbox(r.notes, s, u) == Empty
  {
    hide After, AllProper, Owns, Mailbox, Idle, UBegin, PipesOk, Alternate, Gone, Apart, RingBut, Targets, WorldOk, UserOk, UserIn;
    var dues := AfterOk(es);
    var w := After(es);
    WorldParts(w, dues);
    Watched(w, dues);
    TypedIdle(w, dues, u);
    UnreadPipes(es, s, u);
    BeginReads(FlightOf(w, u), w.users.Keys, u, s, Mailbox(w.notes, s, u).id);
    MailboxMore(w.notes, Took(s, u, Mailbox(w.notes, s, u).id), s, u);
  }

  lemma BeginReads(f: Flight, live: set<nat>, u: nat, s: nat, id: nat)
    requires |f.m.s.ring| == SIZE && Sound(f.m.k) && Exists(live, s) && (u, s) in f.pipes
    requires Owns(f.m.k.fds, f.pipes[(u, s)], id)
    ensures var r := UBegin(f, live, u, s);
            && At(r.m.k.fds, r.m.s.curr.rd) == ReadEnd(id)
            && (forall fd :: fd in r.m.k.fds ==> r.m.k.fds[fd].obj != WriteEnd(id))
            && r.notes == f.notes + [Took(s, u, id)]
  {
    hide SocksOk, Sound, ReadUser;
    OwnsOld(f.m.k, f.pipes[(u, s)], id);
    BeginSound(f.m);
    var f1 := f.(m := Begin(f.m));
    AddKeeps(f.m.k.fds, f.pipes[(u, s)], id, f1.m.s.eol, f.m.k.pipes);
    ReadUserReads(f1, live, u, s, f.pipes[(u, s)], id);
  }

  lemma OwnsOld(k: Proc, p: Ends, id: nat)
    requires Sound(k) && Owns(k.fds, p, id)
    ensures id < k.pipes
  {
  }

  lemma BeginSound(m: Machine)
    requires |m.s.ring| == SIZE && Sound(m.k)
    ensures var m1 := Begin(m); var e := m1.s.eol;
            Sound(m1.k) && m1.k.fds == AddPipe(m.k.fds, e, m.k.pipes) && e.rd !in m.k.fds && e.wr !in m.k.fds
  {
    PipeEffect(m.k);
  }

  /** A user alone on the server, typing the given pieces. */
  function Alone(u: nat, past: seq<Piece>): seq<Act> {
    if past == [] then [Join(u)] else Alone(u, past[..|past| - 1]) + [Typed(u, past[|past| - 1])]
  }

  lemma ProperPrefix(past: seq<Piece>, n: nat)
    requires n <= |past| && Proper(past)
    ensures Proper(past[..n])
  {
    hide UShape, Cell, Delays, EndsNumbered;
    var a, b := Cmds(past[..n]), Cmds(past);
    assert a == b[..n];
    hide Cmds;
    ReusePrefix(b, n);
  }

  lemma ReusePrefix(ps: seq<seq<Command>>, n: nat)
    requires n <= |ps| && NoReuse(ps)
    ensures NoReuse(ps[..n])
  {
    hide Cell;
    assert forall j: nat, x :: Sends(ps[..n], j, x) ==> Sends(ps, j, x);
    assert forall j: nat, x :: Uses(ps[..n], j, x) ==> Uses(ps, j, x);
  }

  lemma LastAdded(es: seq<Act>, e: Act)
    ensures After(es + [e]) == Step(After(es), e)
    ensures AllProper(es) && Allowed(After(es), e) ==> AllProper(es + [e])
  {
    hide Step, Allowed;
    assert (es + [e])[..|es|] == es;
  }

  lemma AloneStart(u: nat)
    requires 1 <= u < MAX_CONN
    ensures AllProper([Join(u)]) && After([Join(u)]).users.Keys == {u}
    ensures After([Join(u)]).users[u].past == [] && After([Join(u)]).users[u].cut == {}
  {
    hide After, AllProper, Proper, NewShell;
    assert After([]) == NewWorld && AllProper([]) by { AfterNone(); }
    LastAdded([], Join(u));
    assert [] + [Join(u)] == [Join(u)];
  }

  lemma AfterNone()
    ensures After([]) == NewWorld && AllProper([])
  {
  }

  /** Nothing asked of a user's pieces is about the others. */
  lemma {:induction false} AloneProper(u: nat, past: seq<Piece>)
    requires Proper(past) && 1 <= u < MAX_CONN
    ensures AllProper(Alone(u, past))
    ensures After(Alone(u, past)).users.Keys == {u} && After(Alone(u, past)).users[u].past == past
    ensures After(Alone(u, past)).users[u].cut == {}
    decreases |past|
  {
    hide Proper, Step, After, AllProper, WorldOk, UserOk, UserIn, UIdle, RingBut, Targets;
    if past == [] {
      AloneStart(u);
    } else {
      var n := |past| - 1;
      var before := Alone(u, past[..n]);
      ProperPrefix(past, n);
      AloneProper(u, past[..n]);
      var dues := AfterOk(before);
      Watched(After(before), dues);
      TypedIdle(After(before), dues, u);
      assert past[..n] + [past[n]] == past;
      LastAdded(before, Typed(u, past[n]));
      StepTyped(After(before), u, past[n]);
      assert past[..n] + [past[n]] == past;
    }
  }

  /** The same ring up to a renaming of descriptors, but for pipes his own exits have closed. */
  ghost predicate Renamed(a: World, b: World, u: nat, past: seq<Piece>, ren: map<Ends, Ends>)
    requires u in a.users && u in b.users
  {
    var s, t := a.users[u].shell, b.users[u].shell;
    && |s.ring| == SIZE == |t.ring| && s.head == t.head
    && (forall c :: 0 <= c < SIZE ==> (s.ring[c] == NoEnds <==> t.ring[c] == NoEnds))
    && (forall x :: |past| < x && Awaited(past, x) && x !in b.users[u].cut ==>
          && s.ring[Cell(x)] in ren && t.ring[Cell(x)] == ren[s.ring[Cell(x)]])
    && (forall p :: p in ren ==> (exists id :: Owns(a.k.fds, p, id)) && exists id :: Owns(b.k.fds, ren[p], id))
    && forall p, q :: p in ren && q in ren && p != q ==> Keys(ren[p]) !! Keys(ren[q])
  }

  lemma OwnsDiffer(t: Table, p: Ends, id: nat, q: Ends, id': nat)
    requires Owns(t, p, id) && Owns(t, q, id') && id != id'
    ensures p != q && Keys(p) !! Keys(q)
  {
    OwnsApart(t, p, id, q, id');
  }

  lemma SlotEmpty(ring: seq<Ends>, ring': seq<Ends>, due: map<nat, Reg>, due': map<nat, Reg>, c: nat)
    requires Folds(ring, due) && Folds(ring', due') && due.Keys == due'.Keys && c < SIZE
    ensures ring[c] == NoEnds <==> ring'[c] == NoEnds
  {
    hide Cell;
    assert forall x :: x in due <==> x in due';
  }

  lemma SameDue(past: seq<Piece>, da: map<nat, Reg>, db: map<nat, Reg>)
    requires Targets(Cmds(past), da) && Targets(Cmds(past), db)
    ensures da.Keys == db.Keys && forall x: nat :: x in da <==> Awaited(past, x)
  {
    hide Cmds, Sends;
    assert forall x: nat :: x in da <==> Awaited(past, x);
    assert forall x: nat :: x in db <==> Awaited(past, x);
  }

  /** The renaming on the pipes of later lines. */
  lemma LaterPipes(line: nat, a: Table, b: Table, da: map<nat, Reg>, db: map<nat, Reg>, cut: set<nat>) returns (ren: map<Ends, Ends>)
    requires da.Keys == db.Keys
    requires forall x :: x in da && line < x && x !in cut ==> Owns(a, da[x].p, da[x].id) && Owns(b, db[x].p, db[x].id)
    requires forall x, y :: x in da && y in da && x != y ==> da[x].id != da[y].id && db[x].id != db[y].id
    ensures forall x :: x in da && line < x && x !in cut ==> da[x].p in ren && ren[da[x].p] == db[x].p
    ensures forall p :: p in ren ==> (exists id :: Owns(a, p, id)) && exists id :: Owns(b, ren[p], id)
    ensures forall p, q :: p in ren && q in ren && p != q ==> Keys(ren[p]) !! Keys(ren[q])
  {
    hide Owns, Keys;
    forall x, y | x in da && y in da && line < x && line < y && x !in cut && y !in cut && x != y
      ensures da[x].p != da[y].p && Keys(db[x].p) !! Keys(db[y].p)
    {
      OwnsDiffer(a, da[x].p, da[x].id, da[y].p, da[y].id);
      OwnsDiffer(b, db[x].p, db[x].id, db[y].p, db[y].id);
    }
    ren := map x | x in da && line < x && x !in cut :: da[x].p := db[x].p;
  }

  lemma SlotsAgree(a: World, b: World, u: nat, da: map<nat, Reg>, db: map<nat, Reg>)
    requires u in a.users && u in b.users && da.Keys == db.Keys
    requires Folds(a.users[u].shell.ring, da) && Folds(b.users[u].shell.ring, db)
    ensures var s, t := a.users[u].shell, b.users[u].shell;
            && |s.ring| == SIZE == |t.ring|
            && (forall c :: 0 <= c < SIZE ==> (s.ring[c] == NoEnds <==> t.ring[c] == NoEnds))
            && forall x :: x in da ==> s.ring[Cell(x)] == da[x].p && t.ring[Cell(x)] == db[x].p
  {
    hide Cell;
    var s, t := a.users[u].shell, b.users[u].shell;
    forall c | 0 <= c < SIZE
      ensures s.ring[c] == NoEnds <==> t.ring[c] == NoEnds
    {
      SlotEmpty(s.ring, t.ring, da, db, c);
    }
  }

  lemma Renaming(a: World, b: World, u: nat, past: seq<Piece>, da: map<nat, Reg>, db: map<nat, Reg>) returns (ren: map<Ends, Ends>)
    requires u in a.users && u in b.users && a.users[u].past == past == b.users[u].past && a.users[u].cut == {}
    requires UserOk(a.k, a.users[u], da) && UserOk(b.k, b.users[u], db)
    ensures Renamed(a, b, u, past, ren)
  {
    hide Owns, Cell, Cmds, Folds, Targets, Awaited, Keys;
    SameDue(past, da, db);
    SlotsAgree(a, b, u, da, db);
    ren := LaterPipes(|past|, a.k.fds, b.k.fds, da, db, b.users[u].cut);
  }

  /** Ids stay within the arrays of user pipes. */
  lemma {:induction false} IdsFit(es: seq<Act>, u: nat)
    requires AllProper(es) && u in After(es).users
    ensures 1 <= u < MAX_CONN
    decreases |es|
  {
    hide AllProper, After, Proper, Clear, URun, CloseVariables;
    if es == [] {
      AfterNone();
    } else {
      LastAct(es);
      if u in After(es[..|es| - 1]).users { IdsFit(es[..|es| - 1], u); }
    }
  }

  lemma OneUser(w: World, dues: Dues, u: nat)
    requires WorldOk(w, dues) && u in w.users
    ensures u in dues && UserOk(w.k, w.users[u], dues[u]) && Proper(w.users[u].past)
  {
    hide UserOk, Proper, PipesOk, Alternate, SocksOk, Sound, Gone, Apart;
    assert UserIn(w, dues, u);
  }

  /** Non-interference: in any run with any number of users a registered user's ring of delayed
      pipes is, up to a renaming of descriptors, the one he would have had typing the same pieces
      alone on the server. */
  lemma NonInterference(es: seq<Act>, u: nat) returns (ren: map<Ends, Ends>)
    requires AllProper(es) && u in After(es).users
    ensures var past := After(es).users[u].past; var alone := After(Alone(u, past));
            && alone.users.Keys == {u} && alone.users[u].past == past
            && Renamed(alone, After(es), u, past, ren)
  {
    hide After, AllProper, UserOk, WorldOk, Proper, Renamed, Alone;
    var w := After(es);
    var past := w.users[u].past;
    IdsFit(es, u);
    var dues := AfterOk(es);
    OneUser(w, dues, u);
    AloneProper(u, past);
    var dues' := AfterOk(Alone(u, past));
    OneUser(After(Alone(u, past)), dues', u);
    ren := Renaming(After(Alone(u, past)), w, u, past, dues'[u], dues[u]);
  }

  const Sends2: Piece := Piece([Exe(["ls"]), UserTo], 0, 2)
  const Reads1: Piece := Piece([Exe(["cat"])], 1, 0)

  lemma OnePiece(past: seq<Piece>)
    requires past == [] || past == [Sends2] || past == [Reads1]
    ensures Proper(past)
  {
    var ps := Cmds(past);
    assert forall i :: 0 <= i < |past| ==> UShape(past[i]) && (EndsNumbered(past[i].cmds) ==> Delays(past[i].cmds));
    assert |ps| <= 1;
  }

  /** What is asked of runs can be met: two users join, one writes to the other, who reads. */
  lemma SampleRun()
    ensures var es := [Join(1), Join(2), Typed(1, Sends2), Typed(2, Reads1)];
            AllProper(es) && After(es).users.Keys == {1, 2}
  {
    hide After, AllProper, Proper, Step, WorldOk;
    var e0: seq<Act> := [];
    var e1 := e0 + [Join(1)];
    var e2 := e1 + [Join(2)];
    var e3 := e2 + [Typed(1, Sends2)];
    var e4 := e3 + [Typed(2, Reads1)];
    AfterNone();
    OnePiece([Sends2]);
    OnePiece([Reads1]);
    SampleJoin(e0, 1);
    SampleJoin(e1, 2);
    var none: seq<Piece> := [];
    assert none + [Sends2] == [Sends2] && none + [Reads1] == [Reads1];
    SampleTyped(e2, 1, Sends2);
    SampleTyped(e3, 2, Reads1);
    assert e2 == [Join(1), Join(2)];
    assert e3 == [Join(1), Join(2), Typed(1, Sends2)];
    assert e4 == [Join(1), Join(2), Typed(1, Sends2), Typed(2, Reads1)];
  }

  lemma SampleJoin(es: seq<Act>, u: nat)
    requires AllProper(es) && u !in After(es).users && 1 <= u < MAX_CONN
    ensures var es' := es + [Join(u)];
            && AllProper(es') && After(es').users.Keys == After(es).users.Keys + {u}
            && After(es').users[u].past == [] && After(es').users[u].cut == {}
            && forall v :: v in After(es).users ==> After(es').users[v] == After(es).users[v]
  {
    hide After, AllProper, Proper, NewShell;
    LastAdded(es, Join(u));
  }

  lemma SampleTyped(es: seq<Act>, u: nat, p: Piece)
    requires AllProper(es) && u in After(es).users && After(es).users[u].cut == {} && Proper(After(es).users[u].past + [p])
    ensures var es' := es + [Typed(u, p)];
            && AllProper(es') && After(es').users.Keys == After(es).users.Keys
            && After(es').users[u].past == After(es).users[u].past + [p] && After(es').users[u].cut == {}
            && forall v :: v in After(es).users && v != u ==> After(es').users[v] == After(es).users[v]
  {
    hide After, AllProper, Proper, URun, WorldOk, UserIn, UIdle, RingBut, Targets;
    var dues := AfterOk(es);
    Watched(After(es), dues);
    TypedIdle(After(es), dues, u);
    LastAdded(es, Typed(u, p));
  }
}
