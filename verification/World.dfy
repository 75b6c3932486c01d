/**
 The single-process server over whole runs: users join, leave and type lines in any order, all
 their shells sharing one process.
 */
module World {
  import opened Kernel
  import opened Pipes
  import opened Shell
  import opened Ownership
  import opened Pieces
  import opened PieceRuns
  import opened Runs
  import opened Accounts
  import opened UserShell
  import opened UserPipes
  import opened UserStages
  import opened UserPieces
  import opened UserVars

  /** A registered user: his shell, the pieces he has typed since he joined, the lines whose delayed
      pipe an exit of his has closed, and the number of his socket. */
  datatype User = User(shell: Shell, past: seq<Piece>, cut: set<nat>, sock: int)

  datatype World = World(k: Proc, users: map<nat, User>, pipes: PipeTable, notes: seq<Note>)

  /** The server copies the standard descriptors and opens its listener, which is no user's. */
  const StartOps: seq<Op> := [Dup(0), Dup(1), Dup(2), OpenSock(-1)]

  /** The numbers the server has after that, beside the standard ones. */
  const Copies: set<int> := {3, 4, 5}
  const Listener: int := 6

  const NewWorld := World(DoAll(FreshProc, StartOps), map[], map[], [])

  /** A user joins, types a piece, says exit, or is removed.  A line with the word exit is one Exit
      for each, then its pieces, then Leave. */
  datatype Act = Join(id: nat) | Typed(id: nat, p: Piece) | Exit(id: nat) | Leave(id: nat)

  function FlightOf(w: World, u: nat): Flight
    requires u in w.users
  {
    Flight(Machine(w.k, w.users[u].shell), w.pipes, w.notes)
  }

  /** The line whose delayed pipe currPipe still names, if it names one. */
  function CutLine(u: User): set<nat> {
    if u.shell.curr != NoEnds && u.past != [] then Target(|u.past| - 1, u.past[|u.past| - 1].cmds) else {}
  }

  /** One event.  Events about ids that make no sense for them change nothing. */
  function Step(w: World, e: Act): World {
    match e
    case Join(id) =>
      if id in w.users then w
      else
        w.(k := Do(w.k, OpenSock(id)), users := w.users[id := User(NewShell(), [], {}, LowestFree(w.k.fds))],
           notes := w.notes + [Joined(id)])
    case Leave(id) =>
      if id !in w.users then w
      else
        w.(k := Do(w.k, Close(w.users[id].sock)), users := w.users - {id},
           pipes := map key | key in w.pipes && key.0 != id :: w.pipes[key])
    case Exit(id) =>
      if id !in w.users then w
      else
        var u := w.users[id];
        var m := CloseVariables(Machine(w.k, u.shell));
        w.(k := m.k, users := w.users[id := u.(shell := m.s, cut := u.cut + CutLine(u))])
    case Typed(id, p) =>
      if id !in w.users || |w.users[id].shell.ring| != SIZE then w
      else
        var r := URun(FlightOf(w, id), w.users.Keys, id, p);
        World(r.m.k, w.users[id := w.users[id].(shell := r.m.s, past := w.users[id].past + [p])], r.pipes, r.notes)
  }

  function After(es: seq<Act>): World {
    if es == [] then NewWorld else Step(After(es[..|es| - 1]), es[|es| - 1])
  }

  /** The command lists of a user's pieces. */
  function Cmds(past: seq<Piece>): seq<seq<Command>> {
    seq(|past|, i requires 0 <= i < |past| => past[i].cmds)
  }

  /** What is asked of the pieces a user types: the shape, a positive delay behind `|`, a positive
      id behind `>`, and no slot of his ring used for two different lines. */
  ghost predicate Proper(past: seq<Piece>) {
    && (forall i :: 0 <= i < |past| ==> UShape(past[i]) && (EndsNumbered(past[i].cmds) ==> Delays(past[i].cmds)))
    && NoReuse(Cmds(past))
  }

  /** The numbers a user's pipe variables name between two pieces. */
  function Held(s: Shell): set<int> {
    Keys(s.eol) + Keys(s.prev) + Keys(s.curr)
  }

  /** Some piece of past has sent its output to line x. */
  ghost predicate Awaited(past: seq<Piece>, x: nat) {
    exists j: nat :: Sends(Cmds(past), j, x)
  }

  /** A user has a slot that his later line x awaits. */
  ghost predicate Awaits(u: User, x: nat) {
    x !in u.cut && |u.shell.ring| == SIZE && |u.past| < x && Awaited(u.past, x)
  }

  /** No unread user pipe has one of the numbers in held. */
  ghost predicate ClearBoxes(w: World, held: set<int>) {
    forall key :: key in w.pipes ==> Keys(w.pipes[key]) !! held
  }

  /** No slot a later line of another user than u awaits has one of the numbers in held. */
  ghost predicate ClearSlots(w: World, u: nat, held: set<int>) {
    forall v, x: nat :: v in w.users && v != u && Awaits(w.users[v], x) ==>
      Keys(w.users[v].shell.ring[Cell(x)]) !! held
  }

  /** Nobody's socket has one of the numbers in held. */
  ghost predicate ClearSocks(w: World, held: set<int>) {
    forall v :: v in w.users ==> w.users[v].sock !in held
  }

  /** Before an exit of user u: no number his pipe variables name is one of an unread user pipe, of
      another user's slot that a later line of his awaits, or of a socket. */
  ghost predicate Clear(w: World, u: nat)
    requires u in w.users
  {
    var held := Held(w.users[u].shell);
    ClearBoxes(w, held) && ClearSlots(w, u, held) && ClearSocks(w, held)
  }

  /** The piece does not come to a slot whose pipe an exit of its user has closed. */
  predicate Spared(u: User, p: Piece) {
    |u.past| + 1 !in u.cut && Target(|u.past|, p.cmds) !! u.cut
  }

  /** What is asked of an act in state w: ids are within the arrays of user pipes, typing is proper
      and comes to no slot its user's own exits have cut off, and exits are clear. */
  ghost predicate Allowed(w: World, e: Act) {
    match e
    case Join(id) => 1 <= id < MAX_CONN
    case Leave(id) => true
    case Typed(id, p) => id in w.users ==> Proper(w.users[id].past + [p]) && Spared(w.users[id], p)
    case Exit(id) => id in w.users ==> Clear(w, id)
  }

  ghost predicate AllProper(es: seq<Act>) {
    es == [] || (AllProper(es[..|es| - 1]) && Allowed(After(es[..|es| - 1]), es[|es| - 1]))
  }

  type Dues = map<nat, map<nat, Reg>>

  /** currPipe names the pipe of the line the last piece has sent its output to. */
  ghost predicate Points(curr: Ends, past: seq<Piece>, due: map<nat, Reg>, cut: set<nat>) {
    && past != [] && Delays(past[|past| - 1].cmds)
    && var x := TargetLine(|past| - 1, past[|past| - 1].cmds);
       x in due && x !in cut && |past| < x && due[x].p == curr
  }

  /** What a user's pipe variables name between pieces: eol anything but the descriptors the server
      starts with and his own pending pipes, curr nothing or one of those. */
  ghost predicate VarsOk(s: Shell, past: seq<Piece>, due: map<nat, Reg>, cut: set<nat>) {
    && Above(s.eol) && Keys(s.eol) !! Copies + {Listener} && s.prev == NoEnds
    && (s.curr == NoEnds || Points(s.curr, past, due, cut))
    && (forall x :: x in due && |past| < x && x !in cut ==> Keys(s.eol) !! Keys(due[x].p))
  }

  /** One user's shell between pieces: its ring holds the pipes of his own later lines, alive but
      for those his exits have closed. */
  ghost predicate UserOk(k: Proc, u: User, due: map<nat, Reg>) {
    && |u.shell.ring| == SIZE && u.shell.w0 <= u.shell.w1 <= |k.kids|
    && VarsOk(u.shell, u.past, due, u.cut)
    && RingBut(Machine(k, u.shell), |u.past|, due, u.cut)
    && Targets(Cmds(u.past), due)
  }

  ghost predicate UserIn(w: World, dues: Dues, u: nat)
    requires u in w.users
  {
    u in dues && UserOk(w.k, w.users[u], dues[u]) && Proper(w.users[u].past)
  }

  /** No two owners share a pipe. */
  ghost predicate Apart(dues: Dues, pipes: PipeTable, notes: seq<Note>) {
    && (forall u, v, x, y :: u in dues && v in dues && u != v && x in dues[u] && y in dues[v] ==>
          dues[u][x].id != dues[v][y].id)
    && (forall u, x :: u in dues && x in dues[u] ==> Unboxed(pipes, notes, dues[u][x].id))
  }

  /** The descriptors the server starts with are in t. */
  ghost predicate Started(t: Table) {
    && (forall fd :: fd in Copies ==> fd in t && t[fd].obj.Other?)
    && Listener in t && t[Listener].obj == Sock(-1)
  }

  /** Every user's socket is open. */
  ghost predicate SocksOk(users: map<nat, User>, t: Table) {
    && Started(t)
    && forall u :: u in users ==> 3 <= users[u].sock && users[u].sock in t && t[users[u].sock].obj == Sock(u)
  }

  ghost predicate WorldOk(w: World, dues: Dues) {
    && SocksOk(w.users, w.k.fds)
    && Sound(w.k) && Gone(w.k.kids, |w.k.kids|, w.k.fds)
    && dues.Keys == w.users.Keys
    && (forall u :: u in w.users ==> UserIn(w, dues, u))
    && PipesOk(w.pipes, w.notes, w.k.fds, w.k.pipes, w.users.Keys) && Alternate(w.notes)
    && Apart(dues, w.pipes, w.notes)
  }

  lemma SocksIn(w: World, dues: Dues)
    requires WorldOk(w, dues)
    ensures SocksOk(w.users, w.k.fds)
  {
    hide SocksOk, UserIn, PipesOk, Alternate, Sound, Gone, Apart;
  }

  /** Another user's piece leaves a user's shell as it was. */
  lemma OtherOk(k: Proc, k': Proc, u: User, due: map<nat, Reg>, gone: set<nat>)
    requires UserOk(k, u, due) && Frame(k.fds, k'.fds, k.pipes, gone)
    requires forall x :: x in due ==> due[x].id !in gone
    requires |k.kids| <= |k'.kids| && k.pipes <= k'.pipes
    ensures UserOk(k', u, due)
  {
    hide Owns, Folds, Cell, Targets, Cmds, VarsOk;
  }

  /** What the piece takes over is its own due pipe or a user pipe, nobody's later pipe. */
  lemma NotTaken(w: World, dues: Dues, user: nat, readUid: int, v: nat, x: nat)
    requires WorldOk(w, dues) && user in dues && v in dues && x in dues[v]
    requires Clean(dues[user], |w.users[user].past| + 1) && |w.users[user].past| + 1 !in w.users[user].cut
    requires v != user || x != |w.users[user].past| + 1
    ensures dues[v][x].id !in Taken(FlightOf(w, user), w.users.Keys, user, readUid)
  {
    hide Cell, Folds, Mailbox, Alternate, SocksOk, Sound, Gone, KidsOk, Targets, Cmds;
    var f := FlightOf(w, user);
    var line := |w.users[user].past|;
    var id := dues[v][x].id;
    if readUid <= 0 {
      FrontBut(f.m, line, dues[user], w.users[user].cut);
      if line + 1 in dues[user] {
        FrontId(f.m, line, dues[user], w.users[user].cut);
      }
    } else if Exists(w.users.Keys, readUid) && (user, readUid as nat) in w.pipes {
      assert Unboxed(w.pipes, w.notes, id);
    }
  }

  lemma FrontId(m: Machine, line: nat, due: map<nat, Reg>, cut: set<nat>)
    requires RingBut(m, line, due, cut) && Clean(due, line + 1) && line + 1 in due && line + 1 !in cut
    ensures Front(m) == due[line + 1].p && Front(m) != NoEnds && IdAt(m.k.fds, Front(m).rd) == due[line + 1].id
  {
    FrontBut(m, line, due, cut);
    hide Cell, Folds, Clean;
    OwnsId(m.k.fds, due[line + 1].p, due[line + 1].id);
  }

  lemma BoxesNotTaken(w: World, dues: Dues, user: nat, readUid: int, r: nat, s: nat)
    requires WorldOk(w, dues) && user in dues && readUid <= 0 && (r, s) in w.pipes
    requires Clean(dues[user], |w.users[user].past| + 1) && |w.users[user].past| + 1 !in w.users[user].cut
    ensures Mailbox(w.notes, s, r).Full? && Mailbox(w.notes, s, r).id !in Taken(FlightOf(w, user), w.users.Keys, user, readUid)
  {
    hide Cell, Folds, Mailbox, Alternate, SocksOk, Sound, Gone, KidsOk, Targets, Cmds;
    var f := FlightOf(w, user);
    var line := |w.users[user].past|;
    FrontBut(f.m, line, dues[user], w.users[user].cut);
    if line + 1 in dues[user] {
      FrontId(f.m, line, dues[user], w.users[user].cut);
      assert Unboxed(w.pipes, w.notes, dues[user][line + 1].id);
    }
  }

  /** The delayed pipes of a user after a piece of his. */
  ghost function UDue(due: map<nat, Reg>, line: nat, p: Piece, r: Flight): map<nat, Reg>
    requires 0 < r.m.k.pipes
  {
    DueAfter(due, line, p.cmds, r.m)
  }

  lemma OwnRing(f: Flight, r: Flight, line: nat, due: map<nat, Reg>, cut: set<nat>, live: set<nat>, user: nat, p: Piece)
    requires |f.m.s.ring| == SIZE && RingBut(f.m, line, due, cut) && Clean(due, line + 1) && line + 1 !in cut && Target(line, p.cmds) !! cut
    requires EndsNumbered(p.cmds) ==> Delays(p.cmds) && Clean(due, TargetLine(line, p.cmds))
    requires UEffect(f, r, p, live, user) && URing(f, r, p)
    requires forall x :: x in due && x != line + 1 ==> due[x].id !in Taken(f, live, user, p.readUid)
    requires 0 < r.m.k.pipes
    ensures RingBut(r.m, line + 1, UDue(due, line, p, r), cut)
  {
    hide Cell, Slot, Folds, UIdle, Owns, Taken, Unboxed, NextHead;
    NextSlot(line);
    var due' := UDue(due, line, p, r);
    if EndsNumbered(p.cmds) {
      var n := p.cmds[|p.cmds| - 1].n;
      var x := TargetLine(line, p.cmds);
      TargetBut(f.m, line, due, cut, n);
      if x !in due {
        OwnsId(r.m.k.fds, r.m.s.curr, r.m.k.pipes - 1);
        FoldsAfter(f.m.s.ring, due, x, due'[x]);
        assert r.m.s.ring == f.m.s.ring[Cell(x) := due'[x].p];
      } else {
        assert r.m.s.ring == f.m.s.ring;
      }
    }
  }

  /** The piece about to be executed is proper after what its user has typed. */
  ghost predicate NextProper(line: nat, due: map<nat, Reg>, cut: set<nat>, p: Piece) {
    && UShape(p) && Clean(due, line + 1) && line + 1 !in cut && Target(line, p.cmds) !! cut
    && (EndsNumbered(p.cmds) ==> Delays(p.cmds) && Clean(due, TargetLine(line, p.cmds)))
  }

  lemma CmdsMore(past: seq<Piece>, p: Piece)
    ensures Cmds(past + [p]) == Cmds(past) + [p.cmds]
  {
  }

  lemma NextIsProper(past: seq<Piece>, p: Piece, due: map<nat, Reg>, cut: set<nat>)
    requires Proper(past + [p]) && Targets(Cmds(past), due) && |past| + 1 !in cut && Target(|past|, p.cmds) !! cut
    ensures NextProper(|past|, due, cut, p)
    ensures forall due': map<nat, Reg> :: due'.Keys == due.Keys + Target(|past|, p.cmds) ==> Targets(Cmds(past + [p]), due')
  {
    hide UShape, Clean, Targets, Delays, EndsNumbered, NoReuse;
    CmdsMore(past, p);
    var qs := Cmds(past + [p]);
    assert qs[..|qs| - 1] == Cmds(past);
    CleanNext(qs, due);
    assert (past + [p])[|past|] == p;
    forall due': map<nat, Reg> | due'.Keys == due.Keys + Target(|past|, p.cmds)
      ensures Targets(qs, due')
    {
      TargetsNext(qs, due, due');
    }
  }

  lemma TypedIdle(w: World, dues: Dues, user: nat)
    requires WorldOk(w, dues) && user in dues
    ensures user in w.users
    ensures var f := FlightOf(w, user);
            user in dues && |f.m.s.ring| == SIZE && UIdle(f, w.users.Keys) && RingBut(f.m, |w.users[user].past|, dues[user], w.users[user].cut)
            && Targets(Cmds(w.users[user].past), dues[user])
  {
    hide SocksOk, Sound, Gone, PipesOk, Alternate, Apart, RingBut, Targets;
    assert UserOk(w.k, w.users[user], dues[user]);
  }

  lemma DueTarget(f: Flight, line: nat, due: map<nat, Reg>, cut: set<nat>, n: int, gone: set<nat>)
    requires RingBut(f.m, line, due, cut) && Clean(due, line + 1) && 1 <= n && Clean(due, line + 1 + n)
    requires line + 1 !in cut && line + 1 + n !in cut
    requires line + 1 + n in due ==> due[line + 1 + n].id !in gone
    ensures UTargetOk(f, n, gone)
  {
    hide Cell, Slot, Folds, Clean;
    var x: nat := line + 1 + n;
    TargetBut(f.m, line, due, cut, n);
    if x in due {
      assert Owns(f.m.k.fds, due[x].p, due[x].id);
    }
  }

  lemma TypedTarget(w: World, dues: Dues, user: nat, p: Piece)
    requires WorldOk(w, dues) && user in w.users && user in dues
    requires NextProper(|w.users[user].past|, dues[user], w.users[user].cut, p) && EndsNumbered(p.cmds)
    ensures |FlightOf(w, user).m.s.ring| == SIZE
    ensures UTargetOk(FlightOf(w, user), p.cmds[|p.cmds| - 1].n, Taken(FlightOf(w, user), w.users.Keys, user, p.readUid))
  {
    hide WorldOk, RingBut, Clean, Taken, UIdle, UShape, UTargetOk;
    TypedIdle(w, dues, user);
    var line := |w.users[user].past|;
    var x := TargetLine(line, p.cmds);
    if x in dues[user] { NotTaken(w, dues, user, p.readUid, user, x); }
    DueTarget(FlightOf(w, user), line, dues[user], w.users[user].cut, p.cmds[|p.cmds| - 1].n, Taken(FlightOf(w, user), w.users.Keys, user, p.readUid));
  }

  /** A user's piece, seen from the shared process. */
  lemma TypedEffect(w: World, dues: Dues, user: nat, p: Piece)
    requires WorldOk(w, dues) && user in w.users && user in dues && NextProper(|w.users[user].past|, dues[user], w.users[user].cut, p)
    ensures |FlightOf(w, user).m.s.ring| == SIZE
    ensures var f := FlightOf(w, user); var r := URun(f, w.users.Keys, user, p);
            UEffect(f, r, p, w.users.Keys, user) && URing(f, r, p)
  {
    hide WorldOk, Taken, URun, UEffect, URing, Clean, Mailbox, UTargetOk, UShape;
    TypedIdle(w, dues, user);
    var f := FlightOf(w, user);
    FrontBut(f.m, |w.users[user].past|, dues[user], w.users[user].cut);
    if p.readUid <= 0 {
      forall r: nat, s: nat | (r, s) in f.pipes
        ensures Mailbox(f.notes, s, r).Full? && Mailbox(f.notes, s, r).id !in Taken(f, w.users.Keys, user, p.readUid)
      {
        BoxesNotTaken(w, dues, user, p.readUid, r, s);
      }
    }
    if EndsNumbered(p.cmds) { TypedTarget(w, dues, user, p); }
    UPieceOk(f, w.users.Keys, user, p);
  }

  lemma NewAbove(k: Proc)
    requires TableOk(k.fds, k.pipes) && Started(k.fds)
    ensures Above(NewEnds(k.fds, k.pipes)) && Keys(NewEnds(k.fds, k.pipes)) !! k.fds.Keys
    ensures Keys(NewEnds(k.fds, k.pipes)) !! Copies + {Listener}
  {
    PipeEffect(k);
  }

  lemma OwnedKeys(t: Table, p: Ends, id: nat)
    requires Owns(t, p, id)
    ensures Keys(p) <= t.Keys
  {
  }

  /** Pending pipes are in the table, eol's numbers are not in it or are newer. */
  lemma EolApart(t: Table, eol: Ends, line: nat, due: map<nat, Reg>, cut: set<nat>)
    requires Keys(eol) !! t.Keys && forall x :: x in due && line < x && x !in cut ==> Owns(t, due[x].p, due[x].id)
    ensures forall x :: x in due && line < x && x !in cut ==> Keys(eol) !! Keys(due[x].p)
  {
    hide Owns, Keys;
    forall x | x in due && line < x && x !in cut
      ensures Keys(eol) !! Keys(due[x].p)
    {
      OwnedKeys(t, due[x].p, due[x].id);
    }
  }

  lemma CurrPending(f: Flight, r: Flight, past: seq<Piece>, due: map<nat, Reg>, cut: set<nat>, p: Piece)
    requires |f.m.s.ring| == SIZE && 0 < r.m.k.pipes && EndsNumbered(p.cmds)
    requires RingBut(f.m, |past|, due, cut) && NextProper(|past|, due, cut, p) && URing(f, r, p)
    ensures Points(r.m.s.curr, past + [p], UDue(due, |past|, p, r), cut)
  {
    hide Folds, Cell, Slot, Unboxed, UShape, Owns;
    assert (past + [p])[|past|] == p;
    TargetBut(f.m, |past|, due, cut, p.cmds[|p.cmds| - 1].n);
  }

  /** After a piece: its user's pipe variables. */
  lemma VarsAfter(f: Flight, r: Flight, past: seq<Piece>, due: map<nat, Reg>, cut: set<nat>, p: Piece)
    requires |f.m.s.ring| == SIZE && TableOk(f.m.k.fds, f.m.k.pipes) && Started(f.m.k.fds) && 0 < r.m.k.pipes
    requires RingBut(f.m, |past|, due, cut) && NextProper(|past|, due, cut, p) && URing(f, r, p)
    requires RingBut(r.m, |past| + 1, UDue(due, |past|, p, r), cut)
    requires r.m.s.eol == NewEnds(f.m.k.fds, f.m.k.pipes) && r.m.s.prev == NoEnds
    requires EndsNumbered(p.cmds) ==> r.m.s.eol.rd !in r.m.k.fds && r.m.s.eol.wr !in r.m.k.fds
    requires !EndsNumbered(p.cmds) ==> r.m.s.curr == NoEnds
    ensures VarsOk(r.m.s, past + [p], UDue(due, |past|, p, r), cut)
  {
    hide NewEnds, URing, NextProper, TableOk, Owns, Folds, Above, Points;
    NewAbove(f.m.k);
    if EndsNumbered(p.cmds) {
      CurrPending(f, r, past, due, cut, p);
      EolApart(r.m.k.fds, r.m.s.eol, |past| + 1, UDue(due, |past|, p, r), cut);
    } else {
      EolApart(f.m.k.fds, r.m.s.eol, |past|, due, cut);
    }
  }

  /** After a piece: its user's shell, and everybody else's. */
  lemma TypedSelf(w: World, dues: Dues, user: nat, p: Piece, due': map<nat, Reg>)
    requires WorldOk(w, dues) && user in w.users && user in dues
    requires NextProper(|w.users[user].past|, dues[user], w.users[user].cut, p) && Targets(Cmds(w.users[user].past + [p]), due')
    requires |FlightOf(w, user).m.s.ring| == SIZE
    requires var r := URun(FlightOf(w, user), w.users.Keys, user, p);
             && 0 < r.m.k.pipes && due' == UDue(dues[user], |w.users[user].past|, p, r)
             && UEffect(FlightOf(w, user), r, p, w.users.Keys, user) && URing(FlightOf(w, user), r, p)
    ensures var r := URun(FlightOf(w, user), w.users.Keys, user, p);
            UserOk(r.m.k, w.users[user].(shell := r.m.s, past := w.users[user].past + [p]), due')
  {
    hide WorldOk, Taken, URing, Clean, Targets, Frame, RingBut, URun, UDue, VarsOk, NextProper, Cmds;
    var f := FlightOf(w, user);
    var r := URun(f, w.users.Keys, user, p);
    var line := |w.users[user].past|;
    TypedIdle(w, dues, user);
    assert NextProper(line, dues[user], w.users[user].cut, p);
    ProperParts(line, dues[user], w.users[user].cut, p);
    forall x | x in dues[user] && x != line + 1
      ensures dues[user][x].id !in Taken(f, w.users.Keys, user, p.readUid)
    {
      NotTaken(w, dues, user, p.readUid, user, x);
    }
    OwnRing(f, r, line, dues[user], w.users[user].cut, w.users.Keys, user, p);
    RunVars(f, w.users.Keys, user, p);
    SocksIn(w, dues);
    VarsAfter(f, r, w.users[user].past, dues[user], w.users[user].cut, p);
  }

  lemma ProperParts(line: nat, due: map<nat, Reg>, cut: set<nat>, p: Piece)
    requires NextProper(line, due, cut, p)
    ensures Clean(due, line + 1) && line + 1 !in cut && Target(line, p.cmds) !! cut
    ensures EndsNumbered(p.cmds) ==> Delays(p.cmds) && Clean(due, TargetLine(line, p.cmds))
  {
  }

  lemma TypedOther(w: World, dues: Dues, user: nat, p: Piece, r: Flight, v: nat)
    requires WorldOk(w, dues) && user in w.users && user in dues && v in dues && v != user
    requires NextProper(|w.users[user].past|, dues[user], w.users[user].cut, p)
    requires |FlightOf(w, user).m.s.ring| == SIZE && UEffect(FlightOf(w, user), r, p, w.users.Keys, user)
    ensures v in w.users && UserOk(r.m.k, w.users[v], dues[v])
  {
    hide Frame, Taken, PipesOk, Alternate, Apart, RingBut, Targets, UShape, Clean, SocksOk, Sound, Gone, Mailbox, VarsOk, Proper;
    var f := FlightOf(w, user);
    var gone := Taken(f, w.users.Keys, user, p.readUid);
    forall x | x in dues[v]
      ensures dues[v][x].id !in gone
    {
      NotTaken(w, dues, user, p.readUid, v, x);
    }
    assert UserIn(w, dues, v);
    OtherOk(w.k, r.m.k, w.users[v], dues[v], gone);
  }
}
