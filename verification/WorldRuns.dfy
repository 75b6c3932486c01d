/**
 What every run of the single-process server keeps, and what it means for its users: user pipes
 alternate, and no user's delayed pipes depend on what the others type.
 */
module WorldRuns {
  import opened Kernel
  import opened Pipes
  import opened Shell
  import opened Ownership
  import opened Pieces
  import opened Runs
  import opened Accounts
  import opened UserShell
  import opened UserPipes
  import opened UserStages
  import opened UserPieces
  import opened UserBoxes
  import opened UserVars
  import opened World

  /** The delayed pipes of one user are in nobody's box, and older than np. */
  ghost predicate Loose(due: map<nat, Reg>, pipes: PipeTable, notes: seq<Note>, np: nat) {
    forall x :: x in due ==> due[x].id < np && Unboxed(pipes, notes, due[x].id)
  }

  lemma LooseIn(w: World, dues: Dues, u: nat)
    requires WorldOk(w, dues) && u in dues
    ensures Loose(dues[u], w.pipes, w.notes, w.k.pipes)
  {
    hide Folds, Unboxed, Owns, Targets, PipesOk, Alternate, SocksOk, Sound, Gone, VarsOk, Proper;
    assert UserIn(w, dues, u);
  }

  lemma LooseAfter(f: Flight, r: Flight, due: map<nat, Reg>)
    requires Loose(due, f.pipes, f.notes, f.m.k.pipes) && BoxKeep(f, r)
    ensures Loose(due, r.pipes, r.notes, r.m.k.pipes)
  {
    hide Unboxed;
  }

  /** The pipe a piece makes for its target line is new and in nobody's box. */
  lemma NewLoose(f: Flight, r: Flight, line: nat, due: map<nat, Reg>, cut: set<nat>, p: Piece)
    requires |f.m.s.ring| == SIZE && RingBut(f.m, line, due, cut) && NextProper(line, due, cut, p)
    requires URing(f, r, p) && 0 < r.m.k.pipes && Loose(due, r.pipes, r.notes, r.m.k.pipes)
    ensures var due' := UDue(due, line, p, r);
            && Loose(due', r.pipes, r.notes, r.m.k.pipes)
            && forall x :: x in due' && x !in due ==> f.m.k.pipes <= due'[x].id
  {
    hide Unboxed, Folds, Cell, Slot, Owns, UShape;
    if EndsNumbered(p.cmds) {
      TargetBut(f.m, line, due, cut, p.cmds[|p.cmds| - 1].n);
    }
  }

  ghost predicate Distinct(dues: Dues) {
    forall u, v, x, y :: u in dues && v in dues && u != v && x in dues[u] && y in dues[v] ==>
      dues[u][x].id != dues[v][y].id
  }

  lemma DistinctAfter(dues: Dues, user: nat, due': map<nat, Reg>, np: nat)
    requires Distinct(dues) && user in dues
    requires forall u, x :: u in dues && x in dues[u] ==> dues[u][x].id < np
    requires forall x :: x in due' ==> np <= due'[x].id || (x in dues[user] && due'[x] == dues[user][x])
    ensures Distinct(dues[user := due'])
  {
  }

  lemma DueKeeps(due: map<nat, Reg>, line: nat, p: Piece, r: Flight)
    requires 0 < r.m.k.pipes
    ensures var due' := UDue(due, line, p, r);
            && due'.Keys == due.Keys + Target(line, p.cmds)
            && forall x :: x in due ==> due'[x] == due[x]
  {
  }

  lemma TypedApart(w: World, dues: Dues, user: nat, p: Piece, r: Flight)
    requires WorldOk(w, dues) && user in w.users && user in dues
    requires NextProper(|w.users[user].past|, dues[user], w.users[user].cut, p)
    requires |FlightOf(w, user).m.s.ring| == SIZE && 0 < r.m.k.pipes
    requires URing(FlightOf(w, user), r, p) && BoxKeep(FlightOf(w, user), r)
    ensures Apart(dues[user := UDue(dues[user], |w.users[user].past|, p, r)], r.pipes, r.notes)
  {
    hide URing, BoxKeep, RingBut, Unboxed, NextProper, UserIn, SocksOk, Sound, Gone, PipesOk, Alternate, Loose, UDue;
    var f := FlightOf(w, user);
    var line := |w.users[user].past|;
    var due' := UDue(dues[user], line, p, r);
    forall u | u in dues
      ensures Loose(dues[u], f.pipes, f.notes, f.m.k.pipes) && Loose(dues[u], r.pipes, r.notes, r.m.k.pipes)
    {
      LooseIn(w, dues, u);
      LooseAfter(f, r, dues[u]);
    }
    assert RingBut(f.m, line, dues[user], w.users[user].cut) by { TypedIdle(w, dues, user); }
    NewLoose(f, r, line, dues[user], w.users[user].cut, p);
    DueKeeps(dues[user], line, p, r);
    LooseApart(dues, user, due', f.pipes, f.notes, r.pipes, r.notes, f.m.k.pipes, r.m.k.pipes);
  }

  lemma LooseApart(dues: Dues, user: nat, due': map<nat, Reg>, pipes0: PipeTable, notes0: seq<Note>, pipes: PipeTable, notes: seq<Note>, np0: nat, np: nat)
    requires Distinct(dues) && user in dues
    requires forall u :: u in dues ==> Loose(dues[u], pipes0, notes0, np0) && Loose(dues[u], pipes, notes, np)
    requires Loose(due', pipes, notes, np)
    requires forall x :: x in due' ==> np0 <= due'[x].id || (x in dues[user] && due'[x] == dues[user][x])
    ensures Apart(dues[user := due'], pipes, notes)
  {
    hide Unboxed;
    assert forall u, x :: u in dues && x in dues[u] ==> dues[u][x].id < np0;
    DistinctAfter(dues, user, due', np0);
  }

  /** The same sockets, still open. */
  lemma SocksLast(users: map<nat, User>, users': map<nat, User>, t: Table, b: Table)
    requires SocksOk(users, t) && Lasting(t, b)
    requires users'.Keys == users.Keys && forall u :: u in users ==> users'[u].sock == users[u].sock
    ensures SocksOk(users', b)
  {
  }

  /** One more socket. */
  lemma SocksMore(users: map<nat, User>, t: Table, id: nat, u: User)
    requires SocksOk(users, t) && id !in users && 3 <= u.sock && u.sock !in t
    ensures SocksOk(users[id := u], t[u.sock := Entry(Sock(id), false)])
  {
  }

  /** Closing the numbers in held. */
  lemma SocksHeld(users: map<nat, User>, users': map<nat, User>, t: Table, held: set<int>)
    requires SocksOk(users, t) && held !! Copies + {Listener}
    requires users'.Keys == users.Keys && forall u :: u in users ==> users'[u].sock == users[u].sock && users[u].sock !in held
    ensures SocksOk(users', t - held)
  {
  }

  lemma WorldAfter(w: World, user: nat, p: Piece, r: Flight, dues': Dues, w': World)
    requires user in w.users && w' == Typing(w, user, p, r)
    requires dues'.Keys == w.users.Keys && UIdle(r, w.users.Keys)
    requires forall v :: v in w'.users ==> UserIn(w', dues', v)
    requires Apart(dues', r.pipes, r.notes) && SocksOk(w.users, w.k.fds) && Lasting(w.k.fds, r.m.k.fds)
    ensures WorldOk(w', dues')
  {
    hide UserIn, Apart, PipesOk, Alternate, SocksOk, Sound, Gone;
    assert w'.users.Keys == w.users.Keys;
    SocksLast(w.users, w'.users, w.k.fds, w'.k.fds);
  }

  /** The server after a piece of user that led to r. */
  function Typing(w: World, user: nat, p: Piece, r: Flight): World
    requires user in w.users
  {
    World(r.m.k, w.users[user := w.users[user].(shell := r.m.s, past := w.users[user].past + [p])], r.pipes, r.notes)
  }

  lemma StillIn(w: World, dues: Dues, user: nat, p: Piece, r: Flight, due': map<nat, Reg>, v: nat)
    requires WorldOk(w, dues) && user in w.users && user in dues && v in w.users
    requires Proper(w.users[user].past + [p])
    requires UserOk(r.m.k, w.users[user].(shell := r.m.s, past := w.users[user].past + [p]), due')
    requires v in dues && v != user ==> UserOk(r.m.k, w.users[v], dues[v])
    ensures UserIn(Typing(w, user, p, r), dues[user := due'], v)
  {
    hide UserOk, Proper, PipesOk, Alternate, SocksOk, Sound, Gone, Apart;
    assert UserIn(w, dues, v) && UserIn(w, dues, user);
  }

  /** Whoever is in both has his delayed pipes in both. */
  ghost predicate Handed(dues: Dues, dues': Dues) {
    forall v, x :: v in dues && v in dues' && x in dues[v] ==> x in dues'[v] && dues'[v][x] == dues[v][x]
  }

  /** A line piece typed by any user keeps the server in order. */
  lemma TypedOk(w: World, dues: Dues, user: nat, p: Piece) returns (dues': Dues)
    requires WorldOk(w, dues) && user in w.users && user in dues && Proper(w.users[user].past + [p]) && Spared(w.users[user], p)
    ensures WorldOk(Step(w, Typed(user, p)), dues') && Handed(dues, dues')
  {
    hide WorldOk, SocksOk, Lasting, Proper, NextProper, URun, UEffect, URing, BoxKeep, Targets, UserOk, UserIn, Apart, UDue;
    TypedIdle(w, dues, user);
    var f := FlightOf(w, user);
    var r := URun(f, w.users.Keys, user, p);
    var line := |w.users[user].past|;
    NextIsProper(w.users[user].past, p, dues[user], w.users[user].cut);
    TypedEffect(w, dues, user, p);
    RunBoxes(f, w.users.Keys, user, p);
    var due' := UDue(dues[user], line, p, r);
    DueKeeps(dues[user], line, p, r);
    dues' := dues[user := due'];
    TypedSelf(w, dues, user, p, due');
    Watched(w, dues);
    forall v | v in w.users
      ensures UserIn(Typing(w, user, p, r), dues', v)
    {
      if v in dues && v != user { TypedOther(w, dues, user, p, r, v); }
      StillIn(w, dues, user, p, r, due', v);
    }
    TypedApart(w, dues, user, p, r);
    EffectIdle(f, r, p, w.users.Keys, user);
    SocksIn(w, dues);
    WorldAfter(w, user, p, r, dues', Step(w, Typed(user, p)));
  }

  lemma Watched(w: World, dues: Dues)
    requires WorldOk(w, dues)
    ensures dues.Keys == w.users.Keys
  {
    hide UserIn, PipesOk, Alternate, SocksOk, Sound, Gone, Apart;
  }

  lemma EffectIdle(f: Flight, r: Flight, p: Piece, live: set<nat>, user: nat)
    requires |f.m.s.ring| == SIZE && UEffect(f, r, p, live, user)
    ensures UIdle(r, live) && Lasting(f.m.k.fds, r.m.k.fds)
  {
    hide UIdle, Taken, Lasting;
  }

  lemma JoinedPipes(pipes: PipeTable, notes: seq<Note>, t: Table, np: nat, live: set<nat>, id: nat)
    requires PipesOk(pipes, notes, t, np, live) && id !in live && Alternate(notes)
    ensures PipesOk(pipes, notes + [Joined(id)], t, np, live + {id}) && Alternate(notes + [Joined(id)])
    ensures forall e: nat :: Unboxed(pipes, notes, e) ==> Unboxed(pipes, notes + [Joined(id)], e)
  {
    hide Owns;
    AlternateMore(notes, Joined(id));
    forall r: nat, s: nat
      ensures Mailbox(notes + [Joined(id)], s, r) == if r == id then Empty else Mailbox(notes, s, r)
    {
      MailboxMore(notes, Joined(id), s, r);
    }
  }

  lemma LeftPipes(pipes: PipeTable, notes: seq<Note>, t: Table, np: nat, live: set<nat>, id: nat)
    requires PipesOk(pipes, notes, t, np, live)
    ensures var rest: PipeTable := map key | key in pipes && key.0 != id :: pipes[key];
            && PipesOk(rest, notes, t, np, live - {id})
            && forall e: nat :: Unboxed(pipes, notes, e) ==> Unboxed(rest, notes, e)
  {
    hide Owns, Mailbox;
  }

  lemma FreshUser(k: Proc, sock: int)
    ensures UserOk(k, User(NewShell(), [], {}, sock), map[]) && Proper([])
  {
  }

  lemma WorldMade(w: World, dues: Dues)
    requires Sound(w.k) && Gone(w.k.kids, |w.k.kids|, w.k.fds) && dues.Keys == w.users.Keys
    requires forall u :: u in w.users ==> UserIn(w, dues, u)
    requires PipesOk(w.pipes, w.notes, w.k.fds, w.k.pipes, w.users.Keys) && Alternate(w.notes)
    requires Apart(dues, w.pipes, w.notes) && SocksOk(w.users, w.k.fds)
    ensures WorldOk(w, dues)
  {
    hide UserIn, PipesOk, SocksOk, Alternate, Sound, Gone, Apart;
  }

  lemma WorldParts(w: World, dues: Dues)
    requires WorldOk(w, dues)
    ensures Sound(w.k) && Gone(w.k.kids, |w.k.kids|, w.k.fds) && dues.Keys == w.users.Keys
    ensures forall u :: u in w.users ==> UserIn(w, dues, u)
    ensures PipesOk(w.pipes, w.notes, w.k.fds, w.k.pipes, w.users.Keys) && Alternate(w.notes)
    ensures Apart(dues, w.pipes, w.notes) && SocksOk(w.users, w.k.fds)
  {
    hide UserIn, PipesOk, SocksOk, Alternate, Sound, Gone, Apart;
  }

  lemma ApartFewer(dues: Dues, dues': Dues, pipes: PipeTable, notes: seq<Note>, pipes': PipeTable, notes': seq<Note>)
    requires Apart(dues, pipes, notes)
    requires forall u, x :: u in dues' && x in dues'[u] ==> u in dues && x in dues[u] && dues'[u][x] == dues[u][x]
    requires forall e: nat :: Unboxed(pipes, notes, e) ==> Unboxed(pipes', notes', e)
    ensures Apart(dues', pipes', notes')
  {
    hide Unboxed;
  }

  /** Opening a socket. */
  lemma SockOpened(k: Proc, owner: int)
    requires Sound(k) && Gone(k.kids, |k.kids|, k.fds)
    ensures var k1 := Do(k, OpenSock(owner)); var fd := LowestFree(k.fds);
            && Sound(k1) && Gone(k1.kids, |k1.kids|, k1.fds) && k1.kids == k.kids && k1.pipes == k.pipes
            && 3 <= fd && fd !in k.fds && k1.fds == k.fds[fd := Entry(Sock(owner), false)]
            && Frame(k.fds, k1.fds, k.pipes, {})
  {
    hide KidsOk;
    assert 0 in k.fds && 1 in k.fds && 2 in k.fds;
    DoLog(k, OpenSock(owner));
    var k1 := Do(k, OpenSock(owner));
    forall c | 0 <= c < |k1.kids| && In(k1.kids[c]).ReadEnd?
      ensures Lacks(k1.fds, In(k1.kids[c]).id)
    {
      assert Lacks(k.fds, In(k.kids[c]).id);
    }
  }

  lemma JoinUser(w: World, dues: Dues, id: nat, u: nat)
    requires WorldOk(w, dues) && id !in w.users && (u == id || u in w.users)
    requires Frame(w.k.fds, Step(w, Join(id)).k.fds, w.k.pipes, {})
    ensures UserIn(Step(w, Join(id)), dues[id := map[]], u)
  {
    hide WorldOk, UserOk, Frame, NewShell, Proper;
    WorldParts(w, dues);
    if u == id {
      FreshUser(Step(w, Join(id)).k, LowestFree(w.k.fds));
    } else {
      assert UserIn(w, dues, u);
      OtherOk(w.k, Step(w, Join(id)).k, w.users[u], dues[u], {});
    }
  }

  lemma JoinOk(w: World, dues: Dues, id: nat)
    requires WorldOk(w, dues) && id !in w.users
    ensures WorldOk(Step(w, Join(id)), dues[id := map[]])
  {
    hide WorldOk, UserIn, PipesOk, Alternate, SocksOk, Sound, Gone, NewShell, Unboxed, Apart, Proper, Frame;
    WorldParts(w, dues);
    SockOpened(w.k, id);
    var w' := Step(w, Join(id));
    JoinedPipes(w.pipes, w.notes, w.k.fds, w.k.pipes, w.users.Keys, id);
    PipesFrame(w.pipes, w'.notes, w.k.fds, w'.k.fds, w.k.pipes, w.k.pipes, w.users.Keys + {id}, {});
    assert w'.users.Keys == w.users.Keys + {id};
    ApartFewer(dues, dues[id := map[]], w.pipes, w.notes, w'.pipes, w'.notes);
    forall u | u in w'.users
      ensures UserIn(w', dues[id := map[]], u)
    {
      JoinUser(w, dues, id, u);
    }
    SocksMore(w.users, w.k.fds, id, w'.users[id]);
    WorldMade(w', dues[id := map[]]);
  }

  /** A pipe does not have the number of a socket. */
  lemma SockNotOwned(t: Table, p: Ends, id: nat, fd: int, owner: int)
    requires Owns(t, p, id) && fd in t && t[fd].obj == Sock(owner)
    ensures Keys(p) !! {fd}
  {
  }

  /** Closing numbers that none of his pending pipes has leaves a user's shell in order. */
  lemma OkLeft(k: Proc, k': Proc, u: User, due: map<nat, Reg>, held: set<int>)
    requires UserOk(k, u, due) && k'.fds == k.fds - held && k'.kids == k.kids && k'.pipes == k.pipes
    requires forall x :: x in due && |u.past| < x && x !in u.cut ==> Keys(due[x].p) !! held
    ensures UserOk(k', u, due)
  {
    hide Targets, RingBut, VarsOk, Keys;
    RingLeft(k, k', u.shell, u.shell, |u.past|, due, u.cut, u.cut, held);
  }

  /** Closing his socket, for a user v who stays. */
  lemma LeaveUser(w: World, dues: Dues, id: nat, v: nat, w': World)
    requires WorldOk(w, dues) && id in w.users && v in w.users && v != id
    requires w'.users == w.users - {id} && w'.k == Do(w.k, Close(w.users[id].sock))
    ensures UserIn(w', dues - {id}, v)
  {
    hide WorldOk, UserOk, Keys, Owns, Proper, Held, SocksOk, Sound, Gone, PipesOk, Alternate, Apart, Awaited, Cell;
    WorldParts(w, dues);
    var fd := w.users[id].sock;
    SocksLess(w.users, w.k.fds, id);
    assert UserIn(w, dues, v);
    var due := dues[v];
    forall x | x in due && |w.users[v].past| < x && x !in w.users[v].cut
      ensures Keys(due[x].p) !! {fd}
    {
      SlotOf(w.k, w.users[v], due, x);
      SockNotOwned(w.k.fds, due[x].p, due[x].id, fd, id);
    }
    OkLeft(w.k, w'.k, w.users[v], due, {fd});
  }

  lemma BoxNotSock(pipes: PipeTable, notes: seq<Note>, t: Table, np: nat, live: set<nat>, fd: int, owner: int)
    requires PipesOk(pipes, notes, t, np, live) && fd in t && t[fd].obj == Sock(owner)
    ensures forall key :: key in pipes ==> Keys(pipes[key]) !! {fd}
  {
    hide Owns, Keys, Mailbox;
    forall key: (nat, nat) | key in pipes
      ensures Keys(pipes[key]) !! {fd}
    {
      var (r, s) := key;
      assert (r, s) == key;
      SockNotOwned(t, pipes[(r, s)], Mailbox(notes, s, r).id, fd, owner);
    }
  }

  lemma SocksLess(users: map<nat, User>, t: Table, id: nat)
    requires SocksOk(users, t) && id in users
    ensures var fd := users[id].sock;
            3 <= fd && fd in t && t[fd].obj == Sock(id) && SocksOk(users - {id}, t - {fd})
  {
  }

  lemma LeaveOk(w: World, dues: Dues, id: nat)
    requires WorldOk(w, dues) && id in w.users
    ensures WorldOk(Step(w, Leave(id)), dues - {id})
  {
    hide WorldOk, UserIn, PipesOk, Alternate, SocksOk, Sound, Gone, Unboxed, Apart, Proper;
    WorldParts(w, dues);
    var fd := w.users[id].sock;
    var w' := Step(w, Leave(id));
    SocksLess(w.users, w.k.fds, id);
    assert LogOk(w'.k) by { LogKept(w.k, fd); }
    SoundLess(w.k, w'.k, {fd});
    BoxNotSock(w.pipes, w.notes, w.k.fds, w.k.pipes, w.users.Keys, fd, id);
    PipesLeft(w.pipes, w.notes, w.k.fds, w.k.pipes, w.users.Keys, {fd});
    LeftPipes(w.pipes, w.notes, w'.k.fds, w.k.pipes, w.users.Keys, id);
    assert w'.users.Keys == w.users.Keys - {id};
    ApartFewer(dues, dues - {id}, w.pipes, w.notes, w'.pipes, w'.notes);
    forall u | u in w'.users
      ensures UserIn(w', dues - {id}, u)
    {
      LeaveUser(w, dues, id, u, w');
    }
    WorldMade(w', dues - {id});
  }

  lemma LogKept(k: Proc, fd: int)
    requires Sound(k)
    ensures LogOk(Do(k, Close(fd)))
  {
    CloseOne(k, fd);
  }

  /** Pipe p survives the closing of the numbers in held exactly if it names none of them. */
  lemma OwnsLeft(t: Table, p: Ends, id: nat, held: set<int>)
    requires Owns(t, p, id)
    ensures Owns(t - held, p, id) <==> Keys(p) !! held
  {
    assert Keys(p) == {p.rd, p.wr};
  }

  lemma StartedIn(users: map<nat, User>, t: Table)
    requires SocksOk(users, t)
    ensures Started(t)
  {
  }

  lemma HeldAbove(w: World, dues: Dues, u: nat)
    requires WorldOk(w, dues) && u in w.users
    ensures forall fd :: fd in Held(w.users[u].shell) ==> 3 <= fd && fd !in Copies && fd != Listener
  {
    hide WorldOk, PipesOk, Alternate, SocksOk, Sound, Gone, Apart, Targets, Folds, Proper;
    var s := w.users[u].shell;
    assert UserIn(w, dues, u) && SocksOk(w.users, w.k.fds) by { WorldParts(w, dues); }
    assert Started(w.k.fds) by { StartedIn(w.users, w.k.fds); }
    if s.curr != NoEnds {
      var x := TargetLine(|w.users[u].past| - 1, w.users[u].past[|w.users[u].past| - 1].cmds);
      assert Owns(w.k.fds, dues[u][x].p, dues[u][x].id);
    }
  }

  lemma SoundLess(k: Proc, k': Proc, held: set<int>)
    requires Sound(k) && Gone(k.kids, |k.kids|, k.fds) && (forall fd :: fd in held ==> 3 <= fd)
    requires k'.fds == k.fds - held && k'.kids == k.kids && k'.pipes == k.pipes && LogOk(k')
    ensures Sound(k') && Gone(k'.kids, |k'.kids|, k'.fds)
  {
    hide LogOk, KidsOk;
    forall c | 0 <= c < |k'.kids| && In(k'.kids[c]).ReadEnd?
      ensures Lacks(k'.fds, In(k'.kids[c]).id)
    {
      assert Lacks(k.fds, In(k.kids[c]).id);
    }
  }

  lemma LacksLess(t: Table, id: nat, held: set<int>)
    requires Lacks(t, id)
    ensures Lacks(t - held, id)
  {
  }

  lemma OwnsClosed(t: Table, p: Ends, id: nat, held: set<int>)
    requires Owns(t, p, id) && Keys(p) <= held
    ensures Lacks(t - held, id)
  {
  }

  /** Closing the numbers in held keeps a user's pending pipes, but for those in cut'. */
  lemma RingLeft(k: Proc, k': Proc, s: Shell, s': Shell, line: nat, due: map<nat, Reg>, cut: set<nat>, cut': set<nat>, held: set<int>)
    requires RingBut(Machine(k, s), line, due, cut) && s'.ring == s.ring && s'.head == s.head
    requires k'.fds == k.fds - held && k'.pipes == k.pipes && cut <= cut'
    requires forall x :: x in due && line < x && x !in cut' ==> Keys(due[x].p) !! held
    requires forall x :: x in cut' && x !in cut ==> x in due && Owns(k.fds, due[x].p, due[x].id) && Keys(due[x].p) <= held
    ensures RingBut(Machine(k', s'), line, due, cut')
  {
    hide Owns, Keys, Folds, Cell, Lacks;
    forall x | x in due && x in cut'
      ensures Lacks(k'.fds, due[x].id)
    {
      if x in cut { LacksLess(k.fds, due[x].id, held); } else { OwnsClosed(k.fds, due[x].p, due[x].id, held); }
    }
    forall x | x in due && line < x && x !in cut'
      ensures Owns(k'.fds, due[x].p, due[x].id)
    {
      assert Owns(k.fds, due[x].p, due[x].id);
      OwnsLeft(k.fds, due[x].p, due[x].id, held);
    }
  }

  lemma SlotOf(k: Proc, u: User, due: map<nat, Reg>, x: nat)
    requires UserOk(k, u, due) && x in due
    ensures |u.shell.ring| == SIZE && u.shell.ring[Cell(x)] == due[x].p && Awaited(u.past, x)
    ensures |u.past| < x && x !in u.cut ==> Owns(k.fds, due[x].p, due[x].id)
  {
    hide Cmds, Owns, VarsOk;
  }

  lemma SlotAwaited(k: Proc, u: User, due: map<nat, Reg>, x: nat)
    requires UserOk(k, u, due) && Awaited(u.past, x)
    ensures x in due
  {
    hide Cmds, Owns, VarsOk, RingBut;
  }

  /** Nothing another user v waits for is closed by user u's exit. */
  lemma ExitSlots(w: World, dues: Dues, u: nat, v: nat, x: nat)
    requires WorldOk(w, dues) && u in w.users && v in w.users && v != u && Clear(w, u)
    requires x in dues[v] && |w.users[v].past| < x && x !in w.users[v].cut
    ensures Keys(dues[v][x].p) !! Held(w.users[u].shell)
  {
    hide SocksOk, PipesOk, Alternate, Sound, Gone, Apart, Targets, Proper, Awaited, RingBut, ClearBoxes, ClearSocks;
    assert UserIn(w, dues, v);
    SlotOf(w.k, w.users[v], dues[v], x);
  }

  /** Nor is anything user u himself waits for, but for the pipe his currPipe still names. */
  lemma ExitSelf(k: Proc, u: User, due: map<nat, Reg>, x: nat)
    requires UserOk(k, u, due) && x in due && |u.past| < x && x !in u.cut + CutLine(u)
    ensures Keys(due[x].p) !! Held(u.shell)
  {
    hide Targets, Folds, Cell, Owns;
    assert Keys(NoEnds) == {};
    if u.shell.curr != NoEnds {
      var y := TargetLine(|u.past| - 1, u.past[|u.past| - 1].cmds);
      assert CutLine(u) == {y} && x != y;
      OwnsApart(k.fds, due[x].p, due[x].id, due[y].p, due[y].id);
    }
  }

  /** The pipe his currPipe still names is alive until his exit closes it. */
  lemma ExitCuts(k: Proc, u: User, due: map<nat, Reg>, x: nat)
    requires UserOk(k, u, due) && x in CutLine(u)
    ensures x in due && Owns(k.fds, due[x].p, due[x].id) && Keys(due[x].p) <= Held(u.shell)
  {
    hide Targets, Folds, Cell, Owns;
  }

  /** User v after the exit of user u. */
  lemma ExitUser(w: World, dues: Dues, u: nat, v: nat, w': World)
    requires WorldOk(w, dues) && u in w.users && v in w.users && Clear(w, u)
    requires var m := CloseVariables(Machine(w.k, w.users[u].shell));
             w'.k == m.k && w'.users == w.users[u := w.users[u].(shell := m.s, cut := w.users[u].cut + CutLine(w.users[u]))]
    ensures UserIn(w', dues, v)
  {
    hide WorldOk, Clear, SocksOk, PipesOk, Alternate, Sound, Gone, Apart, Targets, Proper, RingBut, CloseVariables, CutLine, Points, Cmds;
    WorldParts(w, dues);
    var held := Held(w.users[u].shell);
    ClosedVars(Machine(w.k, w.users[u].shell));
    assert UserIn(w, dues, v) && UserIn(w, dues, u);
    var due := dues[v];
    var cut' := w'.users[v].cut;
    forall x | x in due && |w.users[v].past| < x && x !in cut'
      ensures Keys(due[x].p) !! held
    {
      if v == u { ExitSelf(w.k, w.users[u], due, x); } else { ExitSlots(w, dues, u, v, x); }
    }
    forall x | x in cut' && x !in w.users[v].cut
      ensures x in due && Owns(w.k.fds, due[x].p, due[x].id) && Keys(due[x].p) <= held
    {
      ExitCuts(w.k, w.users[u], due, x);
    }
    RingLeft(w.k, w'.k, w.users[v].shell, w'.users[v].shell, |w.users[v].past|, due, w.users[v].cut, cut', held);
  }

  lemma PipesLeft(pipes: PipeTable, notes: seq<Note>, t: Table, np: nat, live: set<nat>, held: set<int>)
    requires PipesOk(pipes, notes, t, np, live) && forall key :: key in pipes ==> Keys(pipes[key]) !! held
    ensures PipesOk(pipes, notes, t - held, np, live)
  {
    hide Owns, Keys, Mailbox;
    forall r: nat, s: nat | (r, s) in pipes
      ensures Owns(t - held, pipes[(r, s)], Mailbox(notes, s, r).id)
    {
      OwnsLeft(t, pipes[(r, s)], Mailbox(notes, s, r).id, held);
    }
  }

  /** A clear exit keeps the server in order. */
  lemma ExitOk(w: World, dues: Dues, u: nat)
    requires WorldOk(w, dues) && u in w.users && Clear(w, u)
    ensures WorldOk(Step(w, Exit(u)), dues)
  {
    hide ClearSlots, WorldOk, UserIn, PipesOk, Alternate, SocksOk, Sound, Gone, Apart, Proper, CloseVariables, Held, LogOk, Unboxed;
    WorldParts(w, dues);
    var held := Held(w.users[u].shell);
    var w' := Step(w, Exit(u));
    assert w'.k.fds == w.k.fds - held && w'.k.kids == w.k.kids && w'.k.pipes == w.k.pipes && LogOk(w'.k) by {
      ClosedHeld(w, u);
    }
    HeldAbove(w, dues, u);
    SoundLess(w.k, w'.k, held);
    PipesLeft(w.pipes, w.notes, w.k.fds, w.k.pipes, w.users.Keys, held);
    ApartFewer(dues, dues, w.pipes, w.notes, w'.pipes, w'.notes);
    assert w'.users.Keys == w.users.Keys;
    forall v | v in w'.users
      ensures UserIn(w', dues, v)
    {
      ExitUser(w, dues, u, v, w');
    }
    SocksHeld(w.users, w'.users, w.k.fds, held);
    WorldMade(w', dues);
  }

  lemma ClosedHeld(w: World, u: nat)
    requires u in w.users && Sound(w.k)
    ensures var w' := Step(w, Exit(u));
            w'.k.fds == w.k.fds - Held(w.users[u].shell) && w'.k.kids == w.k.kids && w'.k.pipes == w.k.pipes && LogOk(w'.k)
  {
    hide CloseVariables, LogOk;
    ClosedVars(Machine(w.k, w.users[u].shell));
  }

  ghost predicate BoxesLive(w: World, t: Table) {
    forall key: (nat, nat) :: key in w.pipes ==> exists id :: Owns(t, w.pipes[key], id)
  }

  ghost predicate SlotsLive(w: World, dues: Dues, u: nat, t: Table) {
    forall v, x :: v in dues && v in w.users && v != u && x in dues[v] && |w.users[v].past| < x && x !in w.users[v].cut ==>
      Owns(t, dues[v][x].p, dues[v][x].id)
  }

  /** Every socket the server watches is still open. */
  ghost predicate SocksLive(w: World, t: Table) {
    Listener in t && forall v :: v in w.users ==> w.users[v].sock in t
  }

  /** All unread user pipes, everybody else's pending pipes and every socket the server watches are
      still there after user u's exit. */
  ghost predicate Survive(w: World, dues: Dues, u: nat, t: Table) {
    BoxesLive(w, t) && SlotsLive(w, dues, u, t) && SocksLive(w, t)
  }

  lemma BoxLeft(w: World, dues: Dues, key: (nat, nat), held: set<int>)
    requires WorldOk(w, dues) && key in w.pipes
    ensures (exists id :: Owns(w.k.fds - held, w.pipes[key], id)) <==> Keys(w.pipes[key]) !! held
  {
    hide SocksOk, Alternate, Sound, Gone, Apart, UserIn, Mailbox;
    var (r, s) := key;
    assert (r, s) == key;
    var id := Mailbox(w.notes, s, r).id;
    assert Owns(w.k.fds, w.pipes[(r, s)], id);
    OwnsLeft(w.k.fds, w.pipes[key], id, held);
    if id' :| Owns(w.k.fds - held, w.pipes[key], id') {
      assert id' == id;
    }
  }

  lemma SlotLeft(w: World, dues: Dues, v: nat, x: nat, held: set<int>)
    requires WorldOk(w, dues) && v in w.users
    ensures v in dues && |w.users[v].shell.ring| == SIZE
    ensures x in dues[v] <==> Awaited(w.users[v].past, x)
    ensures x in dues[v] && |w.users[v].past| < x && x !in w.users[v].cut ==>
              (Owns(w.k.fds - held, dues[v][x].p, dues[v][x].id) <==> Keys(w.users[v].shell.ring[Cell(x)]) !! held)
  {
    hide SocksOk, PipesOk, Alternate, Sound, Gone, Apart, Targets, Proper, RingBut, Owns, Keys, Awaited, VarsOk;
    assert UserIn(w, dues, v);
    if x in dues[v] {
      SlotOf(w.k, w.users[v], dues[v], x);
      if |w.users[v].past| < x && x !in w.users[v].cut { OwnsLeft(w.k.fds, dues[v][x].p, dues[v][x].id, held); }
    }
    if Awaited(w.users[v].past, x) { SlotAwaited(w.k, w.users[v], dues[v], x); }
    assert |w.users[v].shell.ring| == SIZE;
  }

  lemma BoxesExact(w: World, dues: Dues, held: set<int>)
    requires WorldOk(w, dues)
    ensures BoxesLive(w, w.k.fds - held) <==> ClearBoxes(w, held)
  {
    hide WorldOk, Owns, Keys;
    forall key: (nat, nat) | key in w.pipes
      ensures (exists id :: Owns(w.k.fds - held, w.pipes[key], id)) <==> Keys(w.pipes[key]) !! held
    {
      BoxLeft(w, dues, key, held);
    }
  }

  lemma SlotExact(w: World, dues: Dues, v: nat, x: nat, held: set<int>)
    requires WorldOk(w, dues) && v in w.users
    ensures v in dues && (x in dues[v] && |w.users[v].past| < x && x !in w.users[v].cut <==> Awaits(w.users[v], x))
    ensures Awaits(w.users[v], x) ==>
              (Owns(w.k.fds - held, dues[v][x].p, dues[v][x].id) <==> Keys(w.users[v].shell.ring[Cell(x)]) !! held)
  {
    hide WorldOk, Owns, Keys, Awaited, Cell;
    Watched(w, dues);
    SlotLeft(w, dues, v, x, held);
  }

  lemma SlotsExact(w: World, dues: Dues, u: nat, held: set<int>)
    requires WorldOk(w, dues)
    ensures SlotsLive(w, dues, u, w.k.fds - held) <==> ClearSlots(w, u, held)
  {
    hide WorldOk, Owns, Keys, Awaits, Cell;
    if SlotsLive(w, dues, u, w.k.fds - held) {
      forall v, x: nat | v in w.users && v != u && Awaits(w.users[v], x)
        ensures |w.users[v].shell.ring| == SIZE && Keys(w.users[v].shell.ring[Cell(x)]) !! held
      {
        AwaitsRing(w.users[v], x);
        SlotExact(w, dues, v, x, held);
      }
    }
    if ClearSlots(w, u, held) {
      forall v, x: nat | v in dues && v in w.users && v != u && x in dues[v] && |w.users[v].past| < x && x !in w.users[v].cut
        ensures Owns(w.k.fds - held, dues[v][x].p, dues[v][x].id)
      {
        SlotExact(w, dues, v, x, held);
      }
    }
  }

  lemma AwaitsRing(u: User, x: nat)
    ensures Awaits(u, x) ==> |u.shell.ring| == SIZE
  {
  }

  lemma SocksExact(w: World, held: set<int>)
    requires SocksOk(w.users, w.k.fds) && held !! Copies + {Listener}
    ensures SocksLive(w, w.k.fds - held) <==> ClearSocks(w, held)
  {
  }

  /** An exit leaves the unread user pipes, everybody else's delayed pipes and the sockets alone
      exactly if it is clear. */
  lemma ExitExact(w: World, dues: Dues, u: nat)
    requires WorldOk(w, dues) && u in w.users
    ensures Survive(w, dues, u, Step(w, Exit(u)).k.fds) <==> Clear(w, u)
  {
    hide UserIn, PipesOk, Alternate, Gone, Apart, Step, SocksLive, ClearSocks, Held, WorldOk, SocksOk, Sound, BoxesLive, SlotsLive, ClearBoxes, ClearSlots, CloseVariables;
    WorldParts(w, dues);
    ClosedHeld(w, u);
    HeldAbove(w, dues, u);
    SocksExact(w, Held(w.users[u].shell));
    BoxesExact(w, dues, Held(w.users[u].shell));
    SlotsExact(w, dues, u, Held(w.users[u].shell));
  }

  /** Opening one more descriptor, n being the least number free. */
  lemma OpenAt(t: Table, op: Op, n: nat, e: Entry)
    requires forall fd :: fd in t <==> 0 <= fd < n
    requires (op.OpenSock? && e == Entry(Sock(op.owner), false)) || (op.Dup? && op.from in t && e == Entry(t[op.from].obj, false))
    ensures Apply(t, op) == t[n := e] && forall fd :: fd in Apply(t, op) <==> 0 <= fd < n + 1
  {
    assert LowestFree(t) !in t && n !in t;
  }

  lemma StartDo()
    ensures DoAll(FreshProc, StartOps) == Do(Do(Do(Do(FreshProc, Dup(0)), Dup(1)), Dup(2)), OpenSock(-1))
  {
    hide Do;
    var k3 := Do(Do(Do(FreshProc, Dup(0)), Dup(1)), Dup(2));
    assert StartOps[1..] == [Dup(1), Dup(2), OpenSock(-1)] && StartOps[1..][1..] == [Dup(2), OpenSock(-1)];
    assert [Dup(2), OpenSock(-1)][1..] == [OpenSock(-1)];
    DoOne(k3, OpenSock(-1));
  }

  /** The descriptors the server starts with. */
  lemma StartTable()
    ensures var t := NewWorld.k.fds;
            && t.Keys == {0, 1, 2} + Copies + {Listener} && t[Listener] == Entry(Sock(-1), false)
            && forall fd :: fd in t && fd != Listener ==> t[fd] == Entry(Other(fd % 3), false)
  {
    hide Apply, DoAll;
    StartDo();
    var t0 := FreshProc.fds;
    var t1 := Apply(t0, Dup(0));
    var t2 := Apply(t1, Dup(1));
    var t3 := Apply(t2, Dup(2));
    OpenAt(t0, Dup(0), 3, Entry(Other(0), false));
    OpenAt(t1, Dup(1), 4, Entry(Other(1), false));
    OpenAt(t2, Dup(2), 5, Entry(Other(2), false));
    OpenAt(t3, OpenSock(-1), 6, Entry(Sock(-1), false));
  }

  lemma StartKids()
    ensures var k := NewWorld.k; k.kids == [] && k.pipes == 0 && LogOk(k)
  {
    hide Apply, DoAll;
    StartDo();
  }

  lemma StartWorldOk()
    ensures WorldOk(NewWorld, map[])
  {
    hide DoAll, LogOk;
    StartTable();
    StartKids();
  }

  /** The slot of user u's later line x holds the pipe that has been put there for it. */
  ghost predicate Alive(w: World, dues: Dues, u: nat, x: nat)
    requires u in w.users && u in dues && x in dues[u]
  {
    |w.users[u].shell.ring| == SIZE && Owns(w.k.fds, w.users[u].shell.ring[Cell(x)], dues[u][x].id)
  }

  lemma AliveExact(w: World, dues: Dues, u: nat, x: nat)
    requires WorldOk(w, dues) && u in w.users && |w.users[u].past| < x
    ensures u in dues && (x in dues[u] <==> Awaited(w.users[u].past, x))
    ensures x in dues[u] ==> (Alive(w, dues, u, x) <==> x !in w.users[u].cut)
    ensures x !in dues[u] ==> x !in w.users[u].cut
  {
    hide SocksOk, PipesOk, Alternate, Sound, Gone, Apart, Targets, Proper, Folds, Awaited, VarsOk;
    assert UserIn(w, dues, u);
    if x in dues[u] { SlotOf(w.k, w.users[u], dues[u], x); }
    if Awaited(w.users[u].past, x) { SlotAwaited(w.k, w.users[u], dues[u], x); }
  }

  /** The lines a piece typed next comes to: its own, and the one it sends its output to. */
  function ComesTo(u: User, p: Piece): set<nat> {
    {|u.past| + 1} + Target(|u.past|, p.cmds)
  }

  /** A piece is spared by its user's own exits exactly if every pipe that waits for it, or that it
      is to write to once more, is still there. */
  lemma SparedExact(w: World, dues: Dues, u: nat, p: Piece)
    requires WorldOk(w, dues) && u in w.users
    ensures u in dues
    ensures Spared(w.users[u], p) <==>
              forall x :: x in ComesTo(w.users[u], p) && x in dues[u] ==> Alive(w, dues, u, x)
  {
    hide WorldOk, Alive, Awaited;
    Watched(w, dues);
    forall x | x in ComesTo(w.users[u], p)
      ensures x in dues[u] ==> (Alive(w, dues, u, x) <==> x !in w.users[u].cut)
      ensures x !in dues[u] ==> x !in w.users[u].cut
    {
      AliveExact(w, dues, u, x);
    }
    assert |w.users[u].past| + 1 in ComesTo(w.users[u], p);
    assert forall x :: x in Target(|w.users[u].past|, p.cmds) ==> x in ComesTo(w.users[u], p);
  }

  lemma StepTyped(w: World, u: nat, p: Piece)
    requires u in w.users && |w.users[u].shell.ring| == SIZE
    ensures Step(w, Typed(u, p)).users.Keys == w.users.Keys && Step(w, Typed(u, p)).users[u].past == w.users[u].past + [p]
    ensures Step(w, Typed(u, p)).users[u].cut == w.users[u].cut
  {
    hide URun;
  }

  lemma StepOk(w: World, dues: Dues, e: Act) returns (dues': Dues)
    requires WorldOk(w, dues) && Allowed(w, e)
    ensures WorldOk(Step(w, e), dues') && Handed(dues, dues')
  {
    hide WorldOk, Proper, URun, Clear, CloseVariables;
    Watched(w, dues);
    dues' := dues;
    match e
    case Join(id) =>
      if id !in w.users {
        JoinOk(w, dues, id);
        dues' := dues[id := map[]];
      }
    case Leave(id) =>
      if id in w.users {
        LeaveOk(w, dues, id);
        dues' := dues - {id};
      }
    case Exit(id) =>
      if id in w.users { ExitOk(w, dues, id); }
    case Typed(id, p) =>
      if id in w.users && |w.users[id].shell.ring| == SIZE {
        dues' := TypedOk(w, dues, id, p);
      }
  }

  lemma LastAct(es: seq<Act>)
    requires es != []
    ensures After(es) == Step(After(es[..|es| - 1]), es[|es| - 1])
    ensures AllProper(es) ==> AllProper(es[..|es| - 1]) && Allowed(After(es[..|es| - 1]), es[|es| - 1])
  {
    hide Step, Allowed;
  }

  /** The beginning of a proper run is proper. */
  lemma {:induction false} ProperUpTo(es: seq<Act>, more: seq<Act>)
    requires AllProper(es + more)
    ensures AllProper(es)
    decreases |more|
  {
    hide AllProper, Allowed, Step;
    if more == [] {
      assert es + more == es;
    } else {
      LastAct(es + more);
      assert (es + more)[..|es + more| - 1] == es + more[..|more| - 1];
      ProperUpTo(es, more[..|more| - 1]);
    }
  }

  /** Over every sequence of joins, leaves, clear exits and typed pieces of any users. */
  lemma {:induction false} AfterOk(es: seq<Act>) returns (dues: Dues)
    requires AllProper(es)
    ensures WorldOk(After(es), dues)
    decreases |es|
  {
    if es == [] {
      StartWorldOk();
      dues := map[];
    } else {
      hide WorldOk, Step, Allowed, After, AllProper;
      LastAct(es);
      var before := AfterOk(es[..|es| - 1]);
      dues := StepOk(After(es[..|es| - 1]), before, es[|es| - 1]);
    }
  }
}
